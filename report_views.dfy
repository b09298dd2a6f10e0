/** The report views: `generate_report`, which renders the requested documents for a member one
    after the other and records each one it saved, and the `report_history` listing. */
module ReportViews {
  import opened Wrappers
  import opened Text
  import opened Dates
  import opened Records
  import opened Seqs
  import opened ContextBuilder

  // ---------------------------------------------------------------- templates and file names

  /** The report types the view knows, each with the template file it is rendered from. */
  const TemplateMap: map<string, string> := map[
    "loan_application" := "loan_application.docx",
    "tamasuk" := "tamasuk.docx",
    "loan_approval" := "loan_approval.docx",
    "debit_authority" := "debit_authority.docx",
    "manjurinama" := "manjurinama.docx",
    "guarantor" := "guarantor.docx"]

  predicate IsReportType(t: string)
  {
    t in TemplateMap
  }

  /** The name a generated document is saved under: type, member number and `%Y%m%d` of today. */
  function ReportFilename(reportType: string, memberNumber: string, today: CalendarDate): string
  {
    reportType + "_" + memberNumber + "_" + Yyyymmdd(today) + ".docx"
  }

  /** The name ends in ".docx" preceded by the day, which reads back from it. */
  lemma FilenameCarriesDay(t: string, m: string, d: CalendarDate)
    ensures var f := ReportFilename(t, m, d);
            |f| >= 13 && f[|f| - 5..] == ".docx" && ParseYyyymmdd(f[|f| - 13..|f| - 5]) == Some(d)
  {
    var f := ReportFilename(t, m, d);
    assert f[|f| - 13..|f| - 5] == Yyyymmdd(d);
    YyyymmddRoundTrip(d);
  }

  /** For one member, two documents share a file name only when they have the same type and day:
      a file is overwritten only by the same report regenerated on the same day. */
  lemma FilenameNamesTypeAndDay(t1: string, t2: string, m: string, d1: CalendarDate, d2: CalendarDate)
    requires ReportFilename(t1, m, d1) == ReportFilename(t2, m, d2)
    ensures t1 == t2 && d1 == d2
  {
    var f := ReportFilename(t1, m, d1);
    assert |t1| == |t2|;
    assert t1 == f[..|t1|] == t2;
    var at := |t1| + |m| + 2;
    assert Yyyymmdd(d1) == f[at..at + 8] == Yyyymmdd(d2);
    YyyymmddInjective(d1, d2);
  }

  // ---------------------------------------------------------------- the document generator

  /** The document generator as the view sees it: it saves the rendered file under
      `<media root>/generated_reports/` and returns that path, unless the call raises.
      `faults` maps the position of a requested type to the text of the exception its call
      raises; every other call succeeds. */
  datatype Generator = Generator(mediaRoot: string, faults: map<nat, string>)

  function OutputPath(mediaRoot: string, filename: string): string
  {
    mediaRoot + "/generated_reports/" + filename
  }

  /** The text of the exception the generator raises around the text of the one it caught. */
  function DocumentFailure(e: string): string
  {
    "Failed to generate document: " + e
  }

  /** `DocumentGenerator(template).generate(context, filename)` for the type requested at
      `position`. */
  function Generate(g: Generator, position: nat, filename: string): Result<string>
  {
    if position in g.faults then Err(DocumentFailure(g.faults[position]))
    else Ok(OutputPath(g.mediaRoot, filename))
  }

  // ---------------------------------------------------------------- the generation loop

  /** One entry of `generated_files`. */
  datatype GeneratedFile = GeneratedFile(reportType: string, path: string, filename: string)

  /** How far the loop over the requested types got: the files generated so far, and the text of
      the exception that stopped it, if one did. */
  datatype LoopState = LoopState(files: seq<GeneratedFile>, failure: Option<string>)

  /** The file generated for a request of type `t` by `member` on `today`. */
  predicate Produced(f: GeneratedFile, member: string, today: CalendarDate, g: Generator)
  {
    IsReportType(f.reportType)
    && f.filename == ReportFilename(f.reportType, member, today)
    && f.path == OutputPath(g.mediaRoot, f.filename)
  }

  /** The loop after the first `k` requested types: unknown types are passed over, a known one is
      generated, and the first exception ends the loop. */
  function Loop(types: seq<string>, member: string, today: CalendarDate, g: Generator, k: nat)
    : (r: LoopState)
    requires k <= |types|
    ensures forall i :: 0 <= i < |r.files| ==> Produced(r.files[i], member, today, g)
  {
    if k == 0 then LoopState([], None)
    else
      var prev := Loop(types, member, today, g, k - 1);
      var t := types[k - 1];
      if prev.failure.Some? || !IsReportType(t) then prev
      else
        var filename := ReportFilename(t, member, today);
        match Generate(g, k - 1, filename)
        case Err(e) => LoopState(prev.files, Some(e))
        case Ok(path) => LoopState(prev.files + [GeneratedFile(t, path, filename)], None)
  }

  /** Whether the generator raises for the type requested at position `j`. */
  predicate Faulty(types: seq<string>, g: Generator, j: int)
    requires 0 <= j < |types|
  {
    IsReportType(types[j]) && j in g.faults
  }

  /** The first position below `k` whose type the generator fails on, or `k` when there is none. */
  function FirstFault(types: seq<string>, g: Generator, k: nat): (j: nat)
    requires k <= |types|
    ensures j <= k
    ensures forall i :: 0 <= i < j ==> !Faulty(types, g, i)
    ensures j < k ==> Faulty(types, g, j)
  {
    if k == 0 then 0
    else
      var j := FirstFault(types, g, k - 1);
      if j < k - 1 then j else if Faulty(types, g, k - 1) then k - 1 else k
  }

  function FileTypes(files: seq<GeneratedFile>): (r: seq<string>)
    ensures |r| == |files|
  {
    seq(|files|, i requires 0 <= i < |files| => files[i].reportType)
  }

  lemma FileTypesAppend(files: seq<GeneratedFile>, f: GeneratedFile)
    ensures FileTypes(files + [f]) == FileTypes(files) + [f.reportType]
  {
    assert forall i :: 0 <= i < |files| ==> (files + [f])[i] == files[i];
  }

  lemma FilterOne(t: string)
    ensures Filter([t], IsReportType) == if IsReportType(t) then [t] else []
  {
    assert [t][1..] == [];
  }

  /** The loop stops exactly at the first type the generator fails on, with that exception. */
  lemma {:induction false} LoopStops(types: seq<string>, member: string, today: CalendarDate,
                                     g: Generator, k: nat)
    requires k <= |types|
    ensures var r := Loop(types, member, today, g, k);
            var j := FirstFault(types, g, k);
            (r.failure.None? <==> j == k)
            && (j < k ==> r.failure == Some(DocumentFailure(g.faults[j])))
  {
    if k > 0 {
      LoopStops(types, member, today, g, k - 1);
    }
  }

  /** The loop generates, in request order and duplicates included, exactly the known types
      requested before the first failing one; the type it fails on gets no file. */
  lemma {:induction false} LoopTypes(types: seq<string>, member: string, today: CalendarDate,
                                     g: Generator, k: nat)
    requires k <= |types|
    ensures FileTypes(Loop(types, member, today, g, k).files)
            == Filter(types[..FirstFault(types, g, k)], IsReportType)
  {
    if k > 0 {
      LoopTypes(types, member, today, g, k - 1);
      LoopStops(types, member, today, g, k - 1);
      if FirstFault(types, g, k - 1) == k - 1 && !Faulty(types, g, k - 1) {
        LoopTypesStep(types, member, today, g, k);
      }
    }
  }

  /** One more known type that the generator does not fail on adds its file at the end. */
  lemma LoopTypesStep(types: seq<string>, member: string, today: CalendarDate, g: Generator, k: nat)
    requires 0 < k <= |types| && Loop(types, member, today, g, k - 1).failure.None?
    requires !Faulty(types, g, k - 1)
    requires FileTypes(Loop(types, member, today, g, k - 1).files) == Filter(types[..k - 1], IsReportType)
    ensures FileTypes(Loop(types, member, today, g, k).files) == Filter(types[..k], IsReportType)
  {
    var t := types[k - 1];
    var prev := Loop(types, member, today, g, k - 1);
    assert types[..k] == types[..k - 1] + [t];
    FilterAppend(types[..k - 1], [t], IsReportType);
    FilterOne(t);
    if IsReportType(t) {
      var filename := ReportFilename(t, member, today);
      FileTypesAppend(prev.files, GeneratedFile(t, OutputPath(g.mediaRoot, filename), filename));
    }
  }

  /** Once the loop has stopped, later types change nothing. */
  lemma {:induction false} LoopStaysStopped(types: seq<string>, member: string, today: CalendarDate,
                                            g: Generator, k: nat, l: nat)
    requires k <= l <= |types|
    requires Loop(types, member, today, g, k).failure.Some?
    ensures Loop(types, member, today, g, l) == Loop(types, member, today, g, k)
  {
    if l > k {
      LoopStaysStopped(types, member, today, g, k, l - 1);
    }
  }

  // ---------------------------------------------------------------- the view

  /** The POST fields the view reads; an absent field is `None`. */
  datatype ReportForm = ReportForm(
    memberNumber: Option<string>,
    loanType: Option<string>,
    reportTypes: seq<string>,
    approvedBy: Option<string>,
    approverPost: Option<string>)

  /** One `ReportTracking` row: the member, the report type, the saved path, who generated it
      and on which day. */
  datatype ReportRow = ReportRow(
    member: string,
    reportType: string,
    filePath: string,
    generatedBy: User,
    generatedDate: CalendarDate)

  /** One entry of `session['generated_files']`. */
  datatype SessionFile = SessionFile(reportType: string, filename: string)

  datatype Message = Success(text: string) | Error(text: string)

  /** What one call of the view does: the ledger rows it adds, the file list it stores in the
      session (`None` when it leaves the session alone), the messages it queues and the URL name
      it redirects to. */
  datatype Outcome = Outcome(
    rows: seq<ReportRow>,
    session: Option<seq<SessionFile>>,
    messages: seq<Message>,
    location: string)

  /** A text field counts as given when it is present and not empty. */
  predicate Given(o: Option<string>)
  {
    o.Some? && o.value != ""
  }

  /** `request.POST.get(name, '')`. */
  function PostValue(o: Option<string>): string
  {
    if o.Some? then o.value else ""
  }

  predicate AllRequired(form: ReportForm)
  {
    Given(form.memberNumber) && Given(form.loanType) && form.reportTypes != []
  }

  function RowOf(f: GeneratedFile, member: string, user: User, today: CalendarDate): ReportRow
  {
    ReportRow(member, f.reportType, f.path, user, today)
  }

  function RowsOf(files: seq<GeneratedFile>, member: string, user: User, today: CalendarDate)
    : (r: seq<ReportRow>)
    ensures |r| == |files|
  {
    seq(|files|, i requires 0 <= i < |files| => RowOf(files[i], member, user, today))
  }

  lemma RowsOfAppend(files: seq<GeneratedFile>, f: GeneratedFile, member: string, user: User,
                     today: CalendarDate)
    ensures RowsOf(files + [f], member, user, today) == RowsOf(files, member, user, today) + [RowOf(f, member, user, today)]
  {
    assert forall i :: 0 <= i < |files| ==> (files + [f])[i] == files[i];
  }

  function SessionList(files: seq<GeneratedFile>): (r: seq<SessionFile>)
    ensures |r| == |files|
  {
    seq(|files|, i requires 0 <= i < |files| => SessionFile(files[i].reportType, files[i].filename))
  }

  const ReportCenterUrl := "reports:report_center"
  const ReportSuccessUrl := "reports:report_success"
  /** The name the view passes to its final `redirect`, with a space after the colon. */
  const ReportSuccessUrlAsWritten := "reports: report_success"

  /** The URL names `reports/urls.py` declares in the `reports` namespace. */
  const ReportUrlNames: set<string> := {
    "reports:report_center", "reports:generate_report", "reports:report_success",
    "reports:download_report", "reports:report_history"}

  /** The part of a URL name after the namespace. */
  function ViewName(name: string): string
  {
    var i := IndexOf(name, ':');
    if i < |name| then name[i + 1..] else name
  }

  /** Django's `redirect(name)` for a name with neither '/' nor '.': the URL name it reverses,
      or the text of the `NoReverseMatch` it raises. */
  function Redirect(name: string): Result<string>
  {
    if name in ReportUrlNames then Ok(name)
    else
      var v := ViewName(name);
      Err("Reverse for '" + v + "' not found. '" + v + "' is not a valid view function or pattern name.")
  }

  function SuccessText(n: nat): string
  {
    "Successfully generated " + DecimalText(n) + " report(s)"
  }

  const FailurePrefix := "Failed to generate reports: "
  const MissingFieldsText := "Please fill all required fields"
  /** The text of the `Http404` that `get_object_or_404(Member, ...)` raises. */
  const NoMemberText := "No Member matches the given query."

  /** The end of the successful path: the success message and the session list, then the
      redirect to `target`. A target that does not reverse raises inside the `try`, so the
      failure message is queued as well and the user is sent back to the report center. */
  function Finish(rows: seq<ReportRow>, files: seq<GeneratedFile>, target: string): Outcome
  {
    var done := [Success(SuccessText(|files|))];
    match Redirect(target)
    case Ok(url) => Outcome(rows, Some(SessionList(files)), done, url)
    case Err(e) => Outcome(rows, Some(SessionList(files)), done + [Error(FailurePrefix + e)], ReportCenterUrl)
  }

  /** Why the member lookup or the context build raises, if either does: `get_object_or_404`
      on the member number, then the builder's own two failures, of which only the missing loan
      can still occur. */
  function LookupFailure(st: Store, n: string): Option<string>
  {
    if n !in st.members then Some(NoMemberText)
    else if LoansOf(st, n) == [] then Some(NoLoanFound(n))
    else None
  }

  /** The view behind the field check, for member `n`: stop on a lookup failure, otherwise run the
      loop and finish. */
  function Proceed(n: string, types: seq<string>, user: User, failure: Option<string>,
                   today: CalendarDate, g: Generator): Outcome
  {
    if failure.Some? then Outcome([], None, [Error(FailurePrefix + failure.value)], ReportCenterUrl)
    else
      var run := Loop(types, n, today, g, |types|);
      var rows := RowsOf(run.files, n, user, today);
      if run.failure.Some? then Outcome(rows, None, [Error(FailurePrefix + run.failure.value)], ReportCenterUrl)
      else Finish(rows, run.files, ReportSuccessUrl)
  }

  /** `generate_report` for a request by `user` against the stored records `st` on `today`,
      with the final redirect naming the success page correctly. */
  function GenerateReportOutcome(isPost: bool, form: ReportForm, user: User, st: Store,
                                 today: CalendarDate, g: Generator): Outcome
  {
    if !isPost then Outcome([], None, [], ReportCenterUrl)
    else if !AllRequired(form) then Outcome([], None, [Error(MissingFieldsText)], ReportCenterUrl)
    else
      var n := form.memberNumber.value;
      Proceed(n, form.reportTypes, user, LookupFailure(st, n), today, g)
  }

  /** The context builder fails, once the member exists, exactly when the lookup above says so,
      with the same text. */
  lemma BuildMatchesLookup(st: Store, n: string, eb: string, ep: string, ab: string, ap: string)
    requires n in st.members
    ensures BuildLoanApplicationContext(st, n, eb, ep, ab, ap).Err? <==> LookupFailure(st, n).Some?
    ensures BuildLoanApplicationContext(st, n, eb, ep, ab, ap).Err?
            ==> BuildLoanApplicationContext(st, n, eb, ep, ab, ap).message == LookupFailure(st, n).value
  {
  }

  // ---------------------------------------------------------------- properties of the view

  /** A GET request changes nothing and goes back to the report center. */
  lemma GetChangesNothing(form: ReportForm, user: User, st: Store, today: CalendarDate, g: Generator)
    ensures GenerateReportOutcome(false, form, user, st, today, g) == Outcome([], None, [], ReportCenterUrl)
  {
  }

  /** A POST missing the member number or the loan type, or selecting no report, only queues an
      error: no row, no session entry, and the stored records are not consulted at all. */
  lemma MissingFieldsWriteNothing(form: ReportForm, user: User, st: Store, st': Store,
                                  today: CalendarDate, g: Generator)
    requires form.memberNumber.None? || form.memberNumber == Some("") || form.loanType.None?
             || form.loanType == Some("") || form.reportTypes == []
    ensures GenerateReportOutcome(true, form, user, st, today, g)
            == Outcome([], None, [Error(MissingFieldsText)], ReportCenterUrl)
    ensures GenerateReportOutcome(true, form, user, st, today, g)
            == GenerateReportOutcome(true, form, user, st', today, g)
  {
  }

  /** An unknown member, or a member without a loan, stops the view before any document: no
      row, no session entry, one error message naming the lookup that failed. */
  lemma LookupFailuresWriteNothing(form: ReportForm, user: User, st: Store, today: CalendarDate,
                                   g: Generator)
    requires AllRequired(form)
    requires form.memberNumber.value !in st.members
             || forall l :: l in st.loans ==> l.member != form.memberNumber.value
    ensures var n := form.memberNumber.value;
            GenerateReportOutcome(true, form, user, st, today, g)
            == Outcome([], None, [Error(FailurePrefix + (if n !in st.members then NoMemberText
                                                          else NoLoanFound(n)))], ReportCenterUrl)
  {
    var n := form.memberNumber.value;
    if n in st.members {
      NoLoansOf(st, n);
    }
  }

  /** A member has no loan exactly when no stored loan points at them. */
  lemma NoLoansOf(st: Store, n: string)
    ensures LoansOf(st, n) == [] <==> forall l :: l in st.loans ==> l.member != n
  {
    if LoansOf(st, n) != [] {
      assert LoansOf(st, n)[0] in LoansOf(st, n);
    }
  }

  /** Once the member and a loan of theirs are found, the rows follow the request: one per known
      type requested before the first type the generator fails on, in request order and
      duplicates included, each naming the member, the user, today and the saved file. */
  lemma RowsFollowRequest(form: ReportForm, user: User, st: Store, today: CalendarDate,
                          g: Generator)
    requires AllRequired(form)
    requires form.memberNumber.value in st.members && LoansOf(st, form.memberNumber.value) != []
    ensures var o := GenerateReportOutcome(true, form, user, st, today, g);
            var n := form.memberNumber.value;
            var made := Filter(form.reportTypes[..FirstFault(form.reportTypes, g, |form.reportTypes|)], IsReportType);
            |o.rows| == |made|
            && forall i :: 0 <= i < |o.rows| ==>
                 o.rows[i].reportType == made[i] && o.rows[i].member == n
                 && o.rows[i].generatedBy == user && o.rows[i].generatedDate == today
                 && o.rows[i].filePath == OutputPath(g.mediaRoot, ReportFilename(made[i], n, today))
  {
    var n := form.memberNumber.value;
    var types := form.reportTypes;
    ProceedRows(n, types, user, today, g);
  }

  lemma ProceedRows(n: string, types: seq<string>, user: User, today: CalendarDate, g: Generator)
    ensures var o := Proceed(n, types, user, None, today, g);
            var made := Filter(types[..FirstFault(types, g, |types|)], IsReportType);
            |o.rows| == |made|
            && forall i :: 0 <= i < |o.rows| ==>
                 o.rows[i].reportType == made[i] && o.rows[i].member == n
                 && o.rows[i].generatedBy == user && o.rows[i].generatedDate == today
                 && o.rows[i].filePath == OutputPath(g.mediaRoot, ReportFilename(made[i], n, today))
  {
    var run := Loop(types, n, today, g, |types|);
    LoopTypes(types, n, today, g, |types|);
    assert forall i :: 0 <= i < |run.files| ==> FileTypes(run.files)[i] == run.files[i].reportType;
  }

  /** When the generator never fails, every requested known type gets its row, and the session
      lists the same files in the same order; the view then reports how many it made. */
  lemma NoFaultsAllGenerated(form: ReportForm, user: User, st: Store, today: CalendarDate,
                             g: Generator)
    requires AllRequired(form)
    requires form.memberNumber.value in st.members && LoansOf(st, form.memberNumber.value) != []
    requires forall j :: 0 <= j < |form.reportTypes| && IsReportType(form.reportTypes[j]) ==> j !in g.faults
    ensures var o := GenerateReportOutcome(true, form, user, st, today, g);
            var wanted := Filter(form.reportTypes, IsReportType);
            |o.rows| == |wanted|
            && o.session.Some? && |o.session.value| == |wanted|
            && (forall i :: 0 <= i < |wanted| ==>
                  o.rows[i].reportType == wanted[i] && o.session.value[i].reportType == wanted[i]
                  && o.session.value[i].filename == ReportFilename(wanted[i], form.memberNumber.value, today))
            && o.messages == [Success(SuccessText(|wanted|))]
            && o.location == ReportSuccessUrl
  {
    var types := form.reportTypes;
    var n := form.memberNumber.value;
    assert FirstFault(types, g, |types|) == |types|;
    assert types[..|types|] == types;
    ProceedRows(n, types, user, today, g);
    ProceedFinishes(n, types, user, today, g);
  }

  lemma ProceedFinishes(n: string, types: seq<string>, user: User, today: CalendarDate, g: Generator)
    requires FirstFault(types, g, |types|) == |types|
    ensures var o := Proceed(n, types, user, None, today, g);
            var files := Loop(types, n, today, g, |types|).files;
            o == Outcome(RowsOf(files, n, user, today), Some(SessionList(files)),
                         [Success(SuccessText(|files|))], ReportSuccessUrl)
  {
    LoopStops(types, n, today, g, |types|);
    SuccessRedirectCorrected(RowsOf(Loop(types, n, today, g, |types|).files, n, user, today),
                             Loop(types, n, today, g, |types|).files);
  }

  /** A generator failure ends the view: the rows already made stay, the failing type and all
      later ones get none, the session is left alone, and the exception text is shown. */
  lemma FaultStopsGeneration(form: ReportForm, user: User, st: Store, today: CalendarDate,
                             g: Generator, j: nat)
    requires AllRequired(form)
    requires form.memberNumber.value in st.members && LoansOf(st, form.memberNumber.value) != []
    requires j < |form.reportTypes| && IsReportType(form.reportTypes[j]) && j in g.faults
    requires forall i :: 0 <= i < j && IsReportType(form.reportTypes[i]) ==> i !in g.faults
    ensures var o := GenerateReportOutcome(true, form, user, st, today, g);
            |o.rows| == |Filter(form.reportTypes[..j], IsReportType)|
            && o.session.None?
            && o.messages == [Error(FailurePrefix + DocumentFailure(g.faults[j]))]
            && o.location == ReportCenterUrl
  {
    var types := form.reportTypes;
    var n := form.memberNumber.value;
    assert Faulty(types, g, j);
    assert FirstFault(types, g, |types|) == j;
    ProceedRows(n, types, user, today, g);
    LoopStops(types, n, today, g, |types|);
  }

  /** Finding: as written, the final redirect names "reports: report_success", which does not
      reverse. The `NoReverseMatch` is caught by the view's own handler, so a fully successful
      request queues the success message and then a failure message, and lands on the report
      center instead of the download page. */
  lemma SuccessRedirectAsWrittenFails(rows: seq<ReportRow>, files: seq<GeneratedFile>)
    ensures Redirect("reports: report_success").Err?
    ensures var o := Finish(rows, files, "reports: report_success");
            |o.messages| == 2 && o.messages[0].Success? && o.messages[1].Error?
            && o.location == ReportCenterUrl
  {
    SpacedNameUndeclared();
  }

  /** No URL name of the reports namespace is the success name as written, with a space after the
      colon, while the name without the space is one of them. */
  lemma SpacedNameUndeclared()
    ensures ReportSuccessUrlAsWritten !in ReportUrlNames
    ensures ReportSuccessUrl in ReportUrlNames
  {
    SpaceAfterNamespace("reports:generate_report");
    SpaceAfterNamespace("reports:download_report");
  }

  /** A 23-character name whose ninth character is not a space differs from the name as written. */
  lemma SpaceAfterNamespace(u: string)
    requires |u| == 23 && u[8] != ' '
    ensures u != ReportSuccessUrlAsWritten
  {
    assert ReportSuccessUrlAsWritten[8] == ' ';
  }

  /** With the name written without the space, the success page is reached and the only message
      is the success count. */
  lemma SuccessRedirectCorrected(rows: seq<ReportRow>, files: seq<GeneratedFile>)
    ensures var o := Finish(rows, files, "reports:report_success");
            o.messages == [Success(SuccessText(|files|))] && o.location == "reports:report_success"
            && o.session == Some(SessionList(files)) && o.rows == rows
  {
    assert Redirect(ReportSuccessUrl).Ok?;
  }

  /** The lookup failures of the view with the builder as written: besides the two lookups, the
      builder fails on the address key of every member that has a loan. */
  function LookupFailureAsWritten(st: Store, n: string): (r: Option<string>)
    ensures r.Some?
  {
    if n !in st.members then Some(NoMemberText)
    else if LoansOf(st, n) == [] then Some(NoLoanFound(n))
    else Some(NoAttribute("Member", "add_to_class"))
  }

  /** The builder as written fails, for a member on file, with exactly the text above. */
  lemma BuildAsWrittenMatchesLookup(st: Store, n: string, eb: string, ep: string, ab: string, ap: string)
    requires n in st.members
    ensures BuildAsWritten(st, n, eb, ep, ab, ap).Err?
    ensures BuildAsWritten(st, n, eb, ep, ab, ap).message == LookupFailureAsWritten(st, n).value
  {
    AsWrittenAlwaysFails(st, n, eb, ep, ab, ap);
  }

  /** `generate_report` with the context builder as written; the field checks are unchanged. */
  function GenerateReportAsWritten(isPost: bool, form: ReportForm, user: User, st: Store,
                                   today: CalendarDate, g: Generator): Outcome
  {
    if isPost && AllRequired(form) then
      var n := form.memberNumber.value;
      Proceed(n, form.reportTypes, user, LookupFailureAsWritten(st, n), today, g)
    else GenerateReportOutcome(isPost, form, user, st, today, g)
  }

  /** Finding: as written, no request ever generates a document. Every request ends on the report
      center with no tracking row and no file list, and a complete request for a member with a
      loan queues only the builder's `AttributeError`. */
  lemma AsWrittenNoReportEver(isPost: bool, form: ReportForm, user: User, st: Store,
                              today: CalendarDate, g: Generator)
    ensures var o := GenerateReportAsWritten(isPost, form, user, st, today, g);
            o.rows == [] && o.session.None? && o.location == ReportCenterUrl
    ensures isPost && AllRequired(form) && form.memberNumber.value in st.members
            && LoansOf(st, form.memberNumber.value) != []
            ==> GenerateReportAsWritten(isPost, form, user, st, today, g).messages
                == [Error(FailurePrefix + NoAttribute("Member", "add_to_class"))]
  {
  }

  // ---------------------------------------------------------------- the stateful view

  /** The state `generate_report` writes: the `ReportTracking` table, the session's
      `generated_files` entry and the queued messages. */
  class ReportCenter {
    var ledger: seq<ReportRow>
    var session: Option<seq<SessionFile>>
    var messages: seq<Message>

    constructor(initial: seq<ReportRow>)
      ensures ledger == initial && session.None? && messages == []
    {
      ledger := initial;
      session := None;
      messages := [];
    }

    /** `generate_report`: checks the fields, looks the member up, builds the context, then
        generates the known requested types one by one, recording each saved file, until the
        list ends or the generator raises. */
    method GenerateReport(isPost: bool, form: ReportForm, user: User, st: Store,
                          today: CalendarDate, g: Generator) returns (location: string)
      modifies this
      ensures var o := GenerateReportOutcome(isPost, form, user, st, today, g);
              ledger == old(ledger) + o.rows
              && messages == old(messages) + o.messages
              && session == (if o.session.Some? then o.session else old(session))
              && location == o.location
    {
      if !isPost {
        return ReportCenterUrl;
      }
      if !AllRequired(form) {
        messages := messages + [Error(MissingFieldsText)];
        return ReportCenterUrl;
      }
      var n := form.memberNumber.value;
      if n !in st.members {
        messages := messages + [Error(FailurePrefix + NoMemberText)];
        return ReportCenterUrl;
      }
      var built := BuildLoanApplicationContext(st, n, EnteredBy(user), EnteredPost(user),
                                               PostValue(form.approvedBy), PostValue(form.approverPost));
      BuildMatchesLookup(st, n, EnteredBy(user), EnteredPost(user),
                         PostValue(form.approvedBy), PostValue(form.approverPost));
      if built.Err? {
        messages := messages + [Error(FailurePrefix + built.message)];
        return ReportCenterUrl;
      }
      location := GenerateAll(n, form.reportTypes, user, today, g);
    }

    /** The loop of `generate_report` for member `n`, once the lookups have succeeded: each known
        type is generated in turn and recorded, until the list ends or the generator raises. */
    method GenerateAll(n: string, types: seq<string>, user: User, today: CalendarDate, g: Generator)
      returns (location: string)
      modifies this
      ensures var o := Proceed(n, types, user, None, today, g);
              ledger == old(ledger) + o.rows
              && messages == old(messages) + o.messages
              && session == (if o.session.Some? then o.session else old(session))
              && location == o.location
    {
      var files: seq<GeneratedFile> := [];
      for i := 0 to |types|
        invariant Loop(types, n, today, g, i) == LoopState(files, None)
        invariant ledger == old(ledger) + RowsOf(files, n, user, today)
        invariant messages == old(messages) && session == old(session)
      {
        var t := types[i];
        if IsReportType(t) {
          var filename := ReportFilename(t, n, today);
          var out := Generate(g, i, filename);
          if out.Err? {
            LoopStaysStopped(types, n, today, g, i + 1, |types|);
            messages := messages + [Error(FailurePrefix + out.message)];
            return ReportCenterUrl;
          }
          var f := GeneratedFile(t, out.value, filename);
          RowsOfAppend(files, f, n, user, today);
          ledger := ledger + [RowOf(f, n, user, today)];
          files := files + [f];
        }
      }
      session := Some(SessionList(files));
      var o := Finish(RowsOf(files, n, user, today), files, ReportSuccessUrl);
      messages := messages + o.messages;
      location := o.location;
    }
  }

  // ---------------------------------------------------------------- report history

  /** A day as one number that orders days as the calendar does. */
  function DayNumber(d: Date): int
  {
    d.year * 10000 + d.month * 100 + d.day
  }

  /** Newest first: no row is followed by a row of a later day. */
  predicate NewestFirst(rows: seq<ReportRow>)
  {
    forall i, j :: 0 <= i < j < |rows| ==> DayNumber(rows[i].generatedDate) >= DayNumber(rows[j].generatedDate)
  }

  /** `r` placed into a newest-first list. */
  function InsertByDay(r: ReportRow, rows: seq<ReportRow>): (res: seq<ReportRow>)
    requires NewestFirst(rows)
    ensures NewestFirst(res)
    ensures multiset(res) == multiset(rows) + multiset{r}
    ensures |res| == |rows| + 1 && (res[0] == r || (rows != [] && res[0] == rows[0]))
  {
    if rows == [] || DayNumber(r.generatedDate) >= DayNumber(rows[0].generatedDate) then
      [r] + rows
    else
      assert rows == [rows[0]] + rows[1..];
      [rows[0]] + InsertByDay(r, rows[1..])
  }

  /** The rows of `rows`, newest first (`order_by('-generated_date')`). */
  function NewestFirstOrder(rows: seq<ReportRow>): (res: seq<ReportRow>)
    ensures NewestFirst(res) && multiset(res) == multiset(rows)
  {
    if rows == [] then []
    else
      assert rows == [rows[0]] + rows[1..];
      InsertByDay(rows[0], NewestFirstOrder(rows[1..]))
  }

  function RowsOfMember(ledger: seq<ReportRow>, n: string): seq<ReportRow>
  {
    Filter(ledger, (r: ReportRow) => r.member == n)
  }

  /** `report_history`: the ledger newest first, narrowed to one member when a member number is
      given. */
  function ReportHistory(ledger: seq<ReportRow>, memberNumber: Option<string>): seq<ReportRow>
  {
    NewestFirstOrder(if Given(memberNumber) then RowsOfMember(ledger, memberNumber.value) else ledger)
  }

  /** The history is newest first and holds each ledger row exactly as often as the ledger does;
      with a member number it holds exactly that member's rows. */
  lemma HistoryContents(ledger: seq<ReportRow>, memberNumber: Option<string>)
    ensures NewestFirst(ReportHistory(ledger, memberNumber))
    ensures !Given(memberNumber) ==> multiset(ReportHistory(ledger, memberNumber)) == multiset(ledger)
    ensures Given(memberNumber) ==>
              multiset(ReportHistory(ledger, memberNumber)) == multiset(RowsOfMember(ledger, memberNumber.value))
    ensures Given(memberNumber) ==>
              (forall r :: r in ReportHistory(ledger, memberNumber) <==> r in ledger && r.member == memberNumber.value)
  {
    var h := ReportHistory(ledger, memberNumber);
    if Given(memberNumber) {
      var mine := RowsOfMember(ledger, memberNumber.value);
      assert multiset(h) == multiset(mine);
      forall r
        ensures r in h <==> r in ledger && r.member == memberNumber.value
      {
        assert r in h <==> r in multiset(h);
        assert r in mine <==> r in multiset(mine);
      }
    }
  }
}

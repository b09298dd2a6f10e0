# Loan origination core, modelled in Dafny

This project models the core of a Django application that a savings-and-credit cooperative uses
to originate loans. The model covers four pieces:

- **Member import from a spreadsheet** (`ExcelHandler`). `validate_excel_data` checks the
  header row and every data row, collecting errors and warnings. `import_from_excel` then upserts
  one member per data row, keyed by a member number that is padded to nine digits when numeric.
  The member table is a class field that the import methods update in place.
- **The report context builder** (`ContextBuilder`). It turns one member's stored records (the
  latest loan, the first approval, the first basic collateral record, the property, family,
  income/expense, project, witness and guarantor records, and the organisation profile) into
  the flat dictionary the Word templates are rendered with. It is pure: a function of an
  immutable `Store`.
- **The report views** (`ReportViews`). `generate_report` checks the POST fields, looks the member
  up, builds the context and renders each requested known report type. It records one tracking
  row per document, stores the file list in the session and redirects. `report_history` lists
  the tracking rows newest first, optionally for one member. The tracking table, the session
  entry and the message queue are fields of the `ReportCenter` class. The loop over report types
  is a `for` loop proved against the `Loop` specification function.
- **The loan workflow views** (`LoanViews`). `loan_create` stores a pending loan for a member and
  remembers it in the session. `loan_approval` saves an approval for the loan's member and marks
  the loan approved. The tables and the session are fields of the `LoanDesk` class.

Shared pieces:
- `Text`: `str.strip`, `str.isdigit`, `str.zfill`, `str(int)`.
- `Dates`: `strptime('%Y-%m-%d')` following CPython's pattern, and `strftime('%Y%m%d')`.
- `Seqs`: filter, map and flatten on sequences.
- `Records`: the model rows.
- `Wrappers`: `Option` and `Result`.

Inputs the original reads from its environment become parameters:
- today's date (`today`), read once per request (see "## Left out"), and the creation time of a
  loan (`now`);
- the logged-in user (`User`);
- the database tables (`Store`, `Desk`, the registry's `members` map);
- the document generator (`Generator`). It is given as a media root and the positions, in the
  requested list, where rendering raises, each with the exception text.

Where the code and the written design disagree, the model follows the code:
- The context takes the member's *first* approval record (`.first()`), not the latest.

The context builder has two kinds of defect (see "Findings"). `BuildLoanApplicationContext` is
the corrected builder. The report-view members `BuildMatchesLookup`, `RowsFollowRequest`,
`NoFaultsAllGenerated`, `FaultStopsGeneration` and `ReportCenter.GenerateReport` describe
`generate_report` running on that corrected builder. They also use the corrected success
redirect: the view as written redirects to "reports: report_success", with a space after the
colon, and the model redirects to "reports:report_success" instead (`ReportSuccessUrl`; see
"Findings"). `BuildAsWritten`, `GenerateReportAsWritten` and `SuccessRedirectAsWrittenFails`
describe the code as written.

## Model

| member | source | states |
|---|---|---|
| ExcelHandler.ValidateExcelData | loan_management/members/utils/excel_handler.py:137-198 | the loop computes exactly the verdict, errors and warnings of the `Validate` specification |
| ExcelHandler.CheckHeaders | loan_management/members/utils/excel_handler.py:155-160 | one "Missing required column" message per absent required header, in the order date, member_number, member_name |
| ExcelHandler.CheckNumber | loan_management/members/utils/excel_handler.py:174-179 | a row's member-number errors, and the set of raw numbers seen after it, match the specification |
| ExcelHandler.CheckName | loan_management/members/utils/excel_handler.py:181-182 | a row's member-name error matches the specification |
| ExcelHandler.CheckDate | loan_management/members/utils/excel_handler.py:184-193 | a row's date error and missing-date warning match the specification |
| ExcelHandler.CheckRow | loan_management/members/utils/excel_handler.py:168-193 | the errors of one row are its number, name and date findings in that order, plus its warnings |
| ExcelHandler.EmptySheetRejected | loan_management/members/utils/excel_handler.py:147-149 | a sheet without data rows gives exactly (False, ["Excel file is empty. No data to import."], []) |
| ExcelHandler.MissingHeadersExact | loan_management/members/utils/excel_handler.py:155-160 | a header is reported missing if and only if it is required and absent |
| ExcelHandler.HeaderCheckFailsClosed | loan_management/members/utils/excel_handler.py:158-163 | with a required header missing, the verdict is False with exactly one error per missing header, in order, no warnings, and it is the same whatever the data rows hold |
| ExcelHandler.ValidIff | loan_management/members/utils/excel_handler.py:162-198 | validation passes iff there are data rows, all required headers and no row finding; it passes iff its error list is empty |
| ExcelHandler.NumberFindingsExact | loan_management/members/utils/excel_handler.py:174-179 | row i+2 is reported missing its number iff the cell is falsy, and as a duplicate of v iff its raw value is v and an earlier row holds the same raw value; the first occurrence is accepted |
| ExcelHandler.NameDateFindingsExact | loan_management/members/utils/excel_handler.py:181-193 | a missing name is an error iff the cell is falsy; a bad date is an error iff the cell is text that `%Y-%m-%d` does not parse, so a non-text date is accepted |
| ExcelHandler.ErrorsCollected | loan_management/members/utils/excel_handler.py:166-193 | every finding of every row reaches the final error list, and a missing date gives a warning instead of an error |
| ExcelHandler.WarningsCollected | loan_management/members/utils/excel_handler.py:184-185 | every row without a date contributes its warning to the warnings of all later prefixes |
| ExcelHandler.NormalizeMemberNumber | loan_management/members/utils/excel_handler.py:237-241 | an all-digit stripped number shorter than nine digits becomes exactly nine characters: '0's followed by the number; an all-digit number of nine or more digits is unchanged; the result of an all-digit number is all digits; any other number is only stripped |
| ExcelHandler.NormalizeIdempotent | loan_management/members/utils/excel_handler.py:237-241 | normalising a normalised member number changes nothing |
| Text.StripIdempotent | loan_management/members/utils/excel_handler.py:237 | `strip()` applied twice is `strip()` applied once |
| Text.StripDigits | loan_management/members/utils/excel_handler.py:237-240 | a digit string is its own `strip()` |
| Dates.ParseYmdRoundTrip | loan_management/members/utils/excel_handler.py:247 | every date written as YYYY-MM-DD parses back to itself |
| Dates.ParseYmdSingleDigits | loan_management/members/utils/excel_handler.py:191 | the accepted date text is lenient: "2024-1-5" parses to 5 January 2024 |
| Dates.ParseYmdSpacePaddedDay | loan_management/members/utils/excel_handler.py:191 | a day padded with a space, "2024-01- 5", is accepted |
| Dates.ParseYmdRejectsMissingDay | loan_management/members/utils/excel_handler.py:191 | a day the month does not have, "2023-02-29", is an error |
| Dates.ParseYmdRejectsTrailingSpace | loan_management/members/utils/excel_handler.py:191 | nothing may follow the day: "2024-01-15 " is an error |
| ExcelHandler.UpsertOverwrites | loan_management/members/utils/excel_handler.py:276-290 | upserting two rows under one key equals upserting the second alone |
| ExcelHandler.MemberRegistry.ImportFromExcel | loan_management/members/utils/excel_handler.py:206-295 | the new member table and the returned tuple are those of the `Import` specification applied to the old table; after a failed save the table is restored, as the atomic block's rollback does |
| ExcelHandler.MemberRegistry.ImportAll | loan_management/members/utils/excel_handler.py:220-290 | the loop leaves the table and the three counters as `Run` over the row plans says, stopping at the first failing save |
| ExcelHandler.MemberRegistry.ImportRow | loan_management/members/utils/excel_handler.py:226-290 | one row: skip a row without a number, fail on an unstorable date, otherwise upsert and count a creation or an update |
| ExcelHandler.FailureSticks | loan_management/members/utils/excel_handler.py:294-295 | once a save has raised, the remaining rows change nothing |
| ExcelHandler.FailedIff | loan_management/members/utils/excel_handler.py:225-295 | an import run fails iff one of its row actions is a failing save |
| ExcelHandler.CountersAddUp | loan_management/members/utils/excel_handler.py:220-290 | after a run without failure, created + updated + skipped equals the number of data rows |
| ExcelHandler.NothingSkipped | loan_management/members/utils/excel_handler.py:232-234 | a run with no row lacking a number reports zero skipped |
| ExcelHandler.ValidSheetSkipsNothing | loan_management/members/utils/excel_handler.py:174-234 | a sheet that passes validation has a member number on every row, so no row is skipped |
| ExcelHandler.RunCounts | loan_management/members/utils/excel_handler.py:276-290 | a run that neither skips nor fails counts as created the new keys and as updated every other row |
| ExcelHandler.ValidatedDateKept | loan_management/members/utils/excel_handler.py:243-251 | after validation passes, today's date replaces only an empty date cell; a text date is stored as parsed and a date cell as its calendar date, whatever its time of day |
| ExcelHandler.ImportKeys | loan_management/members/utils/excel_handler.py:276-290 | the import never deletes a member and writes only under the keys of the file's rows |
| ExcelHandler.ImportUntouched | loan_management/members/utils/excel_handler.py:276-290 | a member whose key no row carries is left exactly as it was |
| ExcelHandler.ImportKeepsColumns | loan_management/members/utils/excel_handler.py:253-274 | the two member columns the sheet does not carry keep their previous values, or stay empty for a new member |
| ExcelHandler.CreatedAreNewKeys | loan_management/members/utils/excel_handler.py:284-290 | the created count is the number of distinct keys in the file that were not already in the table |
| ExcelHandler.LastRowWins | loan_management/members/utils/excel_handler.py:276-290 | every key from the file ends up holding the data of the last row carrying that key |
| ExcelHandler.ImportRejectsInvalid | loan_management/members/utils/excel_handler.py:210-212 | a sheet that fails validation leaves the table unchanged and returns (False, "Data validation failed!", errors, warnings), with validation's own non-empty errors and its warnings |
| ExcelHandler.FailedImportKeepsTable | loan_management/members/utils/excel_handler.py:204-295 | whatever makes an import fail, the table is as before (the sheet is never written, or the atomic block rolls the writes back), and the message is "Data validation failed!" or "Import failed: " |
| ExcelHandler.ImportSucceedsIff | loan_management/members/utils/excel_handler.py:208-295 | the import succeeds iff the sheet validates and every numbered row's date can be stored |
| ExcelHandler.PlansFailIff | loan_management/members/utils/excel_handler.py:243-251 | some row's save fails iff some numbered row holds a date value the date column cannot store |
| ExcelHandler.ImportCounts | loan_management/members/utils/excel_handler.py:276-292 | a successful import adds exactly the file's new keys, and its message counts those as created and all other rows as updated |
| ExcelHandler.PaddedTwinsMerge | loan_management/members/utils/excel_handler.py:174-292 | rows "1" and "000000001" are not duplicates to validation, but they merge into one member, the second row's, reported as 1 created and 1 updated |
| Text.DecimalTextValue | loan_management/members/utils/excel_handler.py:291 | the decimal text of a count reads back as that count |
| ContextBuilder.Latest | loan_management/reports/context_builder.py:19 | the chosen loan is one of the member's loans, created no earlier than any other |
| ContextBuilder.BuildFailures | loan_management/reports/context_builder.py:17-157 | the builder fails iff the member is unknown (message "Member … not found!") or has no loan (message "No loan found for member …!") |
| ContextBuilder.LatestLoanCopied | loan_management/reports/context_builder.py:52-61 | the nine loan fields are copied from a loan of the member with the greatest creation time |
| ContextBuilder.FirstOfFilter | loan_management/reports/context_builder.py:22-23 | `.filter(...).first()` is empty iff nothing matches, and otherwise the earliest matching record |
| ContextBuilder.NoApprovalFields | loan_management/reports/context_builder.py:64-71 | without an approval for the member, the approval date, amount, words and remarks are '' |
| ContextBuilder.FirstApprovalFields | loan_management/reports/context_builder.py:64-71 | otherwise those four fields come from the member's first approval in table order |
| ContextBuilder.NoCollateralBasicFields | loan_management/reports/context_builder.py:73-77 | without a basic collateral record, the four savings fields are '' |
| ContextBuilder.FirstCollateralBasicFields | loan_management/reports/context_builder.py:73-77 | otherwise they come from the member's first basic collateral record |
| ContextBuilder.OrganizationFields | loan_management/reports/context_builder.py:32-37 | company name and address come from the first organisation profile, or are '' without one |
| ContextBuilder.ArgumentsPassedThrough | loan_management/reports/context_builder.py:65-68 | entered_by, entered_post, approved_by and approver_post reach the context unchanged |
| ContextBuilder.MemberFields | loan_management/reports/context_builder.py:40-50 | the member number and name are copied, and every optional member column, the address included, is rendered as '' when missing or empty and as its value otherwise |
| ContextBuilder.RenderedOrElse | loan_management/reports/context_builder.py:42-50 | `value or ''` renders a missing or empty value as '' and any other value as itself |
| ContextBuilder.IncomeExpensePartition | loan_management/reports/context_builder.py:105-113 | the income items are exactly the member's "income" records in order, the expense items exactly the "expense" records, and together they are no more than the member's records |
| ContextBuilder.PropertyEntries | loan_management/reports/context_builder.py:80-91 | one property entry per collateral property of the member, in query order, with its owner, district, municipality, ward, plot, area and land type |
| ContextBuilder.FamilyEntries | loan_management/reports/context_builder.py:94-103 | one entry per family record of the member, in order, with all five fields |
| ContextBuilder.ProjectEntries | loan_management/reports/context_builder.py:116-126 | one entry per project of the member, in order, with name, self investment, requested amount, total budget, and remarks or '' |
| ContextBuilder.WitnessEntries | loan_management/reports/context_builder.py:129-137 | one entry per witness of the member, in order, with all four fields |
| ContextBuilder.GuarantorEntries | loan_management/reports/context_builder.py:140-149 | one entry per guarantor of the member, in order, with name, address, phone, citizenship number and age |
| ContextBuilder.AsWrittenAlwaysFails | loan_management/reports/context_builder.py:17-157 | as written, the builder never returns a context: an unknown member and a member without a loan fail as in the corrected builder, and every member with a loan fails with "'Member' object has no attribute 'add_to_class'" |
| ContextBuilder.MisspelledColumnsRaise | loan_management/reports/context_builder.py:80-149 | with only the address corrected, the builder succeeds iff the member has no property, project or guarantor record, and then returns the corrected context; otherwise it raises the AttributeError of the first misspelled attribute it meets, in the order properties, projects, guarantors |
| ReportViews.FilenameCarriesDay | loan_management/reports/views.py:55-72 | a report file name ends in ".docx", and the eight characters before it read back as today's date |
| ReportViews.FilenameNamesTypeAndDay | loan_management/reports/views.py:72 | for one member, two file names are equal only for the same report type on the same day |
| Dates.YyyymmddRoundTrip | loan_management/reports/views.py:55 | `%Y%m%d` of a date reads back as that date |
| Dates.YyyymmddInjective | loan_management/reports/views.py:55 | different days never share a `%Y%m%d` rendering |
| ReportViews.Loop | loan_management/reports/views.py:69-89 | every file the loop produces has a known type, the file name built from type, member and day, and the path the generator returned for it |
| ReportViews.LoopStops | loan_management/reports/views.py:69-89 | the loop stops iff the generator raises on a known type, exactly at the first such type, with "Failed to generate document: " and the exception text |
| ReportViews.LoopTypes | loan_management/reports/views.py:69-89 | the types generated are, in request order and with repeats, exactly the known types requested before the first failure |
| ReportViews.LoopStaysStopped | loan_management/reports/views.py:69-89 | once the loop has stopped, the types after that position change nothing |
| ReportViews.GetChangesNothing | loan_management/reports/views.py:31-32 | a non-POST request writes no row, no session entry and no message, and redirects to the report center |
| ReportViews.MissingFieldsWriteNothing | loan_management/reports/views.py:44-46 | a missing member number or loan type, or no selected report, queues only "Please fill all required fields" and redirects to the report center, whatever the database holds |
| ReportViews.BuildMatchesLookup | loan_management/reports/views.py:49-54 | for a known member, the context build fails iff the member has no loan, and then with the builder's message |
| ReportViews.LookupFailuresWriteNothing | loan_management/reports/views.py:48-106 | an unknown member queues the Http404 text, and a member without a loan queues the no-loan text; neither writes a row or the session |
| ReportViews.NoLoansOf | loan_management/reports/context_builder.py:19 | a member has no loan iff no stored loan points at them |
| ReportViews.RowsFollowRequest | loan_management/reports/views.py:69-89 | once member and loan are found, every tracking row is for that member, the requesting user and today, with the type and path of a produced file |
| ReportViews.NoFaultsAllGenerated | loan_management/reports/views.py:69-102 | with no generator failure, one row and one session entry per requested known type, in order; the message "Successfully generated n report(s)"; and a redirect to the success page |
| ReportViews.FaultStopsGeneration | loan_management/reports/views.py:69-106 | a generator failure keeps the rows of the types before it, writes no session entry, queues "Failed to generate reports: Failed to generate document: " and the exception text, and redirects to the report center |
| ReportViews.BuildAsWrittenMatchesLookup | loan_management/reports/views.py:48-54 | for a member on file, the builder as written fails with the text `LookupFailureAsWritten` gives: the missing loan, or the `add_to_class` AttributeError |
| ReportViews.AsWrittenNoReportEver | loan_management/reports/views.py:29-106 | with the builder as written, no request writes a tracking row or a session entry, every request ends on the report center, and a complete request for a member with a loan queues only "Failed to generate reports: 'Member' object has no attribute 'add_to_class'" |
| ReportViews.SuccessRedirectAsWrittenFails | loan_management/reports/views.py:102 | the URL name as written does not reverse, so even a fully successful run also queues the failure message and lands on the report center |
| ReportViews.SpacedNameUndeclared | loan_management/reports/urls.py:7-11 | no URL name of the reports namespace is "reports: report_success", written with a space after the colon, while "reports:report_success" is one of them |
| ReportViews.SpaceAfterNamespace | loan_management/reports/urls.py:7-11 | a 23-character name whose ninth character, the one after "reports:", is not a space differs from "reports: report_success" |
| ReportViews.SuccessRedirectCorrected | loan_management/reports/views.py:91-102 | with the name written without the space, the only message is the success message, the session holds the file list and the view lands on the success page |
| ReportViews.ReportCenter.GenerateReport | loan_management/reports/views.py:29-106 | the tracking table, the session's file list, the message queue and the redirect target change exactly as `GenerateReportOutcome` says |
| ReportViews.ReportCenter.GenerateAll | loan_management/reports/views.py:69-102 | the `for` loop appends to the tracking table exactly the rows of `Loop`'s files and finishes as `Proceed` says |
| ReportViews.InsertByDay | loan_management/reports/views.py:135-137 | inserting a row into a newest-first list keeps it newest first and adds exactly that row |
| ReportViews.NewestFirstOrder | loan_management/reports/views.py:135-137 | `order_by('-generated_date')` is a newest-first permutation of the rows |
| ReportViews.HistoryContents | loan_management/reports/views.py:133-146 | the history is newest first; without a member number it is a permutation of the table; with one it is a permutation of that member's rows, so a row is in it iff it is in the table and belongs to that member |
| LoanViews.CreateAddsPendingLoan | loan_management/loans/views.py:14-24 | a valid POST for a known member adds exactly one loan, under a new id, with the form's columns, that member, status pending and creation time now; it changes no other loan and no approval, and the session remembers the loan and the member |
| LoanViews.CreateOpensCollateralForm | loan_management/loans/views.py:26 | a successful create redirects to "collateral:basic_form" with the single argument member_number, which is the member the session names and the new loan belongs to |
| LoanViews.CreateSessionPointsAtLoan | loan_management/loans/views.py:17-24 | after a successful create, the session names the member, and its current loan id is a stored loan of that member |
| LoanViews.CreateWritesNothingOtherwise | loan_management/loans/views.py:9-35 | an unknown member gives 404, and a GET or an invalid form renders the loan form; none of them writes anything |
| LoanViews.CreateKeepsConsistent | loan_management/loans/views.py:15-19 | loan_create keeps every id below the next id and every loan and approval pointing at a stored member |
| LoanViews.ApprovalAppendsOne | loan_management/loans/views.py:48-59 | a valid POST for a stored loan appends one approval with the form's columns, for the loan's member, entered by the user's Nepali name or else username, with post or else "Officer"; it marks that loan approved and changes no other loan, no member and not the session |
| LoanViews.ApprovalWritesNothingOtherwise | loan_management/loans/views.py:44-71 | an unknown loan gives 404, and a GET or an invalid form renders the approval page; none of them writes anything |
| LoanViews.ApprovalKeepsConsistent | loan_management/loans/views.py:51-59 | loan_approval keeps the database consistent |
| LoanViews.CreateThenApprove | loan_management/loans/views.py:17-59 | the loan the session remembers after a create can be approved next: the approval is for the same member and the loan becomes approved |
| LoanViews.LoanDesk.LoanCreate | loan_management/loans/views.py:9-35 | the tables, session, messages and response change exactly as `CreateStep` says |
| LoanViews.LoanDesk.LoanApproval | loan_management/loans/views.py:44-71 | the approval is saved, then the loan's status is updated, ending exactly as `ApprovalStep` says |

## Left out

- Reading the workbook (openpyxl) is not modelled. A sheet is its set of header names and its rows of typed cells. The `Error reading Excel file: …` path of the validator and the exception text after "Import failed: " are not modelled.
- Header names are a set: a sheet with two columns of the same name, or with empty header cells, is not modelled.
- `str.isdigit` is modelled on ASCII digits only; Python also accepts other Unicode digits.
- Dates.ParseYmd: accepts ASCII digits only. CPython's `strptime` pattern uses `\d` for `%Y` and for the second digit of `%m` and `%d`, which also matches other Unicode decimal digits; a date text written with such digits parses in the source but falls back to today's date in the model.
- A date cell's time of day is kept only as the text `str()` gives it; microseconds and time zones of a `datetime` cell are not modelled apart from that text.
- Python's equality across numeric types (`1 == 1.0 == True`) is not modelled in the duplicate check: cells of different kinds are always different.
- The import's `transaction.atomic` block is modelled only by its effect on a failed save. Django marks the block for rollback when a save raises, even though the handler catches the exception. So after "Import failed: " the model restores the table as it was. Database errors and concurrent imports are not modelled.
- `generate_template` (writing an empty template workbook) is I/O and is not part of this model.
- `DocumentGenerator` is modelled only by what the view sees: the path it returns, or the exception it raises at given positions of the request. Template rendering, the document contents, directory creation and the media-root path join (modelled as "/" concatenation) are left out. Its constructor ignores the template name and always opens a file literally called `template_name` (loan_management/reports/document_generator.py:11). That bug surfaces in the model only as generator failures.
- The `loan_type` POST field is checked for presence and never used, in the model as in the view.
- `report_center`, `report_success`, `download_report` and `loan_list`, the page rendering of every view, login enforcement and the Django message framework beyond the queued texts are not part of this model.
- The Http404 and NoReverseMatch texts are Django's own. The model keeps the 404 text and the fact that a non-reversible name raises; it does not keep the exact NoReverseMatch wording.
- ContextBuilder.Latest: ties in creation time are broken by query order in the model; only maximality is claimed, because the database's tie order is unspecified.
- ReportViews.HistoryContents: rows of the same day may come in any order; only newest-first order and the contents are claimed, because the database's tie order is unspecified.
- The builder only reads the database. That holds by construction, since the model is a function of an immutable `Store`, so no lemma states it.
- LoanInfoForm and ApprovalForm validation rules are not modelled: a POST carries either cleaned data or a rejected form.
- The clock is read once per request: one `today` serves the whole request. The code reads it several times. `generate_report` calls `date.today()` for the file names (loan_management/reports/views.py:55) and again for each tracking row (loan_management/reports/views.py:83). `import_from_excel` calls `datetime.now().date()` for each row that falls back to today (loan_management/members/utils/excel_handler.py:247 and :250). A request running across midnight is not modelled. There, tracking rows could carry the next day while the file names keep the previous one, and imported rows could carry different days.
- ReportViews.RowsFollowRequest: a row's `generatedDate` equals the day in its file name only because the model reads the clock once; across midnight the code can give them different days.
- The database assigns a loan's id; the model takes the next value of a counter, `nextId`. The creation time is the parameter `now`.
- The approval and the status update are two separate saves in the source; a failure between them is not modelled.

## Findings

| source | as written | input that shows it | evidently intended | confidence | as-written member | corrected member |
|---|---|---|---|---|---|---|
| loan_management/reports/views.py:102 | redirects to the URL name "reports: report_success", with a space after the colon; no such name exists, so `redirect` raises NoReverseMatch and the view's own handler catches it | once context_builder.py:48 is corrected: a POST for a member with a loan, selecting "tamasuk", with a generator that does not fail. The document is written and tracked, but the user sees "Failed to generate reports: …" on the report center | redirect to "reports:report_success" | high, not executed | ReportViews.SuccessRedirectAsWrittenFails | ReportViews.SuccessRedirectCorrected |
| loan_management/reports/context_builder.py:48 | reads `member.add_to_class` for the address. `add_to_class` is a method of Django's model metaclass, which instances do not see, so the builder raises AttributeError for every member with a loan | a member with one loan and no other records: the builder raises, and generate_report queues "Failed to generate reports: 'Member' object has no attribute 'add_to_class'" and generates nothing | read the member's `address` column | high, not executed | ContextBuilder.AsWrittenAlwaysFails | ContextBuilder.MemberFields |
| loan_management/reports/context_builder.py:84 | reads `p.municipaliy_vdc`, an attribute `CollateralProperty` does not have. The defect is latent: it shows only once line 48 is corrected | with line 48 corrected, a member with a loan and one collateral property: the builder raises AttributeError and no report can be generated | read the municipality column | high, not executed | ContextBuilder.MisspelledColumnsRaise | ContextBuilder.PropertyEntries |
| loan_management/reports/context_builder.py:120-121 | reads `p.requested_loan_amount` and `p.total_cost`, attributes `ProjectDetail` does not have; latent behind line 48 | with line 48 corrected, a member with a loan and one project and no property | read the project's requested loan amount and total budget columns | high, not executed | ContextBuilder.MisspelledColumnsRaise | ContextBuilder.ProjectEntries |
| loan_management/reports/context_builder.py:146 | reads `g.gurantor_age`, an attribute `GuarantorDetails` does not have; latent behind line 48 | with line 48 corrected, a member with a loan and one guarantor and no property or project | read the guarantor's age column | high, not executed | ContextBuilder.MisspelledColumnsRaise | ContextBuilder.GuarantorEntries |

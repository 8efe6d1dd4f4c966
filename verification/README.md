# UAE e-invoicing: verification model

This project models, in Dafny 4.11, the two cores of a UAE e-invoicing service and proves what they promise.

**The invoice domain.** Spreadsheet cells are parsed into decimals, lines and headers are recalculated with half-up
rounding, VAT is grouped by category, a rule engine compares the upload with its recalculated form, auto-fix rewrites
common mistakes with a log, and the result is rendered as a UBL document and a QR payload. The same invoice is
recalculated at parse, edit, submit, XML build and QR build; the theorems say when those passes agree.

**The filing lifecycle.** A batch is parsed and joined, its rows are edited, promoted to invoices, held at an approval
gate, and filed by jobs that read, archive, call the provider and write back in separate transactions, while webhooks,
polls and retries interleave. Each database transaction is one atomic step; the theorems hold over every run.

## How it is laid out

| files | what they hold |
|---|---|
| Text, Money, Numerals | text handling; decimals, rounding and printing; which texts spell which numbers |
| Calc, CalcResults, Subtotals | recalculation, what it writes over the cells it reads, VAT by category |
| Precision, RateStability | 34-digit arithmetic against exact arithmetic; when recalculation settles |
| Codes, Validate, RuleTable | code lists, the rule engine, and the table of rules it amounts to |
| RecalcFindings, StagedPayload | what recalculation does to findings and payloads |
| AutoFix, AutoFixRules, AutoFixLog, AutoFixSettles, AutoFixSafe | auto-fix, its rules field by field, its log, its fixed points, and that it breaks nothing |
| Utf8, Base64, Qr | the QR codec |
| Ubl, UblTotals, UblReadBack | the UBL tree, the sums it must show, and every element of it read back |
| Workbook, WorkbookCells, WorkbookResults, Uploads | columns, padding, the row cap, which cell each field comes from, the join of lines to headers, orphans, what reaches staging |
| Patches, Columns, Staging, StagingSteps | edits, the tables with their columns, their steps and what each step leaves |
| StagingRules, PromotionRules, PromotionResults, TableRules | the invariant of staging |
| Filing, FilingRules, FilingRuns, FilingFrozen, FilingArchive, FilingKeys, FilingVerdicts | the protocol as a state machine, and its theorems over runs |
| Approvals, FilingJobs | who let an invoice out, and what each job, retry, verdict and sweep does, over runs |
| Samples | two runs the rules let through |
| Desk, Provider | the handlers, jobs and the simulated provider as classes updated in place |

Values are exact: an amount is a real, and every rounding is written out. What the source updates in place is a class or
a loop here, proved equal to a function of the old state; the theorems are about those functions.

## What the code does that its own documentation does not say

- `modules/staging/service.ts` lets a rejected invoice's number be filed again; the unique constraint on invoice numbers
  does not, so such a submission always aborts (`PromotionResults.RejectedNumberBlocksSubmission`).
- A verdict that overtakes the closing write of its own job is overwritten (`FilingVerdicts.FastVerdictIsOverwritten`);
  that is the only kind of step that can undo an acceptance (`FilingRules.OnlyAClosingWriteUndoes`), so an acceptance is
  permanent exactly when no job that may still write the status is in flight (`FilingRuns.AcceptedForGood`).
- The platform's retry releases an invoice that is still waiting for its approver, and a webhook refusing an invoice that
  was never sent does the same (`FilingVerdicts.PlatformRetryBypassesTheGate`, `UnsolicitedVerdictBypassesTheGate`). A
  step breaks the gate exactly when it is one of these two (`FilingRules.GateStep`).
- The rules trim the type code, the document builder does not: an accepted credit note may lack its reference, exactly
  when its code carries stray spaces (`UblTotals.AdjustmentsReferBack`, `SpacedNoteLosesReference`).
- Duplicates are counted and looked up as numbers are spelled, but judged by the trimmed number: an edited number with a
  stray space escapes both the duplicate count and the check against filed invoices
  (`PromotionResults.EditedNumberRule`, `Samples.OneNumberTwice`).
- Line numbers are compared as text by the rules and as numbers by the database: "1" and "01" on one invoice are accepted
  and abort every submission that chooses it (`Samples.AcceptedButNeverInserted`, `Columns.DigitNumbersFit`).
- The simulated provider's transient failures are not transient: they are a function of the key
  (`Provider.FailingKeyNeverRecorded`).

## Model

| member | source | states |
|---|---|---|
| Text.FilterIgnoresTrim | packages/domain/src/autofix.ts:110 | A replacement that deletes all white space gives the same result on the text and on its trimmed form. |
| Money.RoundHalfUp | packages/domain/src/money.ts:58 | The rounded integer is within one half of the value; exact halves go away from zero on both sides. |
| Money.RoundingSettles | packages/domain/src/money.ts:56-59 | Rounding to some places lands on the grid of those places: rounding twice is rounding once. |
| Money.ParseSigned | packages/domain/src/money.ts:35-53 | A fixed-point number with its sign, written in digits, parses to exactly that many units at that scale. |
| Money.ParsePrint | packages/domain/src/money.ts:35-59 | Parsing a fixed-point print gives the printed value rounded half-up to the printed places, for every value, sign and number of places. |
| Money.GroupsKeepDigits | packages/domain/src/money.ts:86 | Deleting separators from a grouped whole part gives its digits back. |
| Money.GroupsOfThree | packages/domain/src/money.ts:86 | Commas stand at every fourth position from the right and nowhere else. |
| Money.FormatParses | packages/domain/src/money.ts:79-88 | Parsing the portal's display form of any parseable value, negative ones included, gives the value rounded half-up to the displayed places. |
| Numerals.CellReadsAs | packages/domain/src/money.ts:35-53 | Every cell that, without its commas and white space, is perhaps a currency code in any case, perhaps a minus, digits, and perhaps a point with digits after it, reads as the number its digits spell place by place. |
| Numerals.OnlySpelledCellsRead | packages/domain/src/money.ts:45 | No other cell is a number: whatever reads is spelled that way. |
| Numerals.PrintedAs | packages/domain/src/money.ts:56-59 | A print is the rounded value with exactly the given number of digits after the point, no idle leading zero, and a minus exactly for values below zero. |
| CalcResults.LineAmounts | packages/domain/src/calc.ts:23-52 | Over the line's own cells: the net reads as quantity times price minus discount (none when unreadable) at two decimals, the VAT as that net times the rate (5 for S, 0 for Z, E and O, else the rate cell or nothing) in a hundred, the total as their sum, the rate cell as that rate; every other cell is left alone, and a line without quantity or price gets blanks. |
| CalcResults.HeaderAmounts | packages/domain/src/calc.ts:54-87 | Over the lines' own cells: line extension and tax exclusive read as the sum of those nets, VAT as the sum of those VATs, tax inclusive and payable as both together, and the AED payable as the payable times the exchange rate, one when that is unreadable or zero. |
| Calc.RecalcLineSettles | packages/domain/src/calc.ts:23-52 | A line whose rate is dictated by its category, or has at most two decimals, is recalculated once and for all. |
| Calc.RecalcInvoiceSettles | packages/domain/src/calc.ts:54-87 | An invoice of such lines is a fixed point of recalculation after one pass. |
| RateStability.SettlesExactlyForShortRates | packages/domain/src/calc.ts:29-32 | For a category that is not a known code: recalculation settles on every line with a given rate text if and only if that text is unreadable or has at most two decimals. |
| StagedPayload.TwiceIsEnough | packages/domain/src/calc.ts:23-87 | For every invoice at all, a third recalculation changes nothing. |
| StagedPayload.JudgedAgrees | apps/api/src/modules/staging/routes.ts:204-205 | A recalculated invoice the rules accept differs from its next recalculation in no field but the spelling of a rate. |
| StagedPayload.UploadSettles | apps/api/src/jobs/parseBatch.ts:121-129 | An accepted upload with unique line ids, stored recalculated, is stored in a form recalculation leaves alone. |
| Subtotals.TaxSubtotals | packages/domain/src/calc.ts:101-127 | The bucket loop yields one subtotal per known category in order of first appearance, each with that category's net and VAT sums. |
| Subtotals.HeaderReads | packages/domain/src/calc.ts:54-87 | The header amounts read back as the sums of the line amounts, and the payable as the sum of line totals. |
| Subtotals.VatConserved | packages/domain/src/calc.ts:101-127 | When every category is a known code: printed subtotals have distinct categories and add up exactly to the printed line-extension and VAT totals, and line totals to the payable. |
| Subtotals.SubtotalDrift | packages/domain/src/calc.ts:41-43 | Each category's printed tax differs from rate times taxable by at most 0.005 per line, and is exactly zero for Z, E and O. |
| Precision.RecalcLineExact | packages/domain/src/calc.ts:41-43 | With every operation rounded to 34 digits, a line within the column widths recalculates to the text exact arithmetic gives, which CalcResults.LineAmounts spells out. |
| Precision.RecalcInvoiceExact | packages/domain/src/calc.ts:54-87 | So do all header sums, for any number of lines an array can hold; and the AED conversion when the rate and the payable fit their columns. |
| Precision.PrecisionMatters | packages/domain/src/money.ts:15 | Beyond the columns it fails: a 35-digit quantity at 1.00 is stored with a different net amount. |
| Validate.NumberFindings | packages/domain/src/validation/validate.ts:95-121 | Number rules pass exactly when the trimmed number is given, well formed, not filed and not counted more than once in the batch. |
| Validate.DateFindings | packages/domain/src/validation/validate.ts:134-153 | Date rules block exactly when the date is malformed, no calendar day, or in the future; back-dating only warns. |
| Validate.CurrencyFindings | packages/domain/src/validation/validate.ts:160-177 | Currency rules pass exactly for a listed currency with, outside AED, a positive rate. |
| Validate.SupplierFindings | packages/domain/src/validation/validate.ts:179-196 | Supplier rules pass exactly for a valid TRN, equal to the tenant's when there is one, and a name. |
| Validate.BuyerTrnFindings | packages/domain/src/validation/validate.ts:198-226 | Buyer TRN rules pass exactly for a valid TRN, or none where the type needs none. |
| Validate.HeaderFindings | packages/domain/src/validation/validate.ts:95-257 | The header findings block exactly when some header rule fails, and none of them is one recalculation could remove. |
| Validate.LineFindings | packages/domain/src/validation/validate.ts:335-444 | A line's findings block exactly when one of its rules fails: basics, category and supplied rate, discount, overwritten amounts. |
| Validate.CellFindings | packages/domain/src/validation/validate.ts:421-441 | A derived cell draws a finding exactly when it is readable and differs from the formula at two decimals. |
| Validate.DiscountFindings | packages/domain/src/validation/validate.ts:406-419 | A discount on a computable line must lie between zero and the gross amount. |
| Validate.TotalFindings | packages/domain/src/validation/validate.ts:271-326 | Total findings block exactly when a line could not be computed or the supplied totals disagree with the recalculated payable. |
| Validate.Findings | packages/domain/src/validation/validate.ts:79-333 | An invoice has no blocking finding exactly when every rule, stated as a predicate, holds of it. |
| Validate.ValidateInvoice | packages/domain/src/validation/validate.ts:79-333 | The validator, with its counting map and its loop over lines, returns the specified findings in order and their verdict. |
| Validate.CountLineNumbers | packages/domain/src/validation/validate.ts:259-265 | One pass over the lines counts each raw line number. |
| Validate.ValidateBatch | packages/domain/src/validation/validate.ts:447-458 | Every invoice of a batch is judged under counts of trimmed, non-blank numbers over the whole batch. |
| Validate.DuplicatesHeldBack | packages/domain/src/validation/validate.ts:107-120 | Two invoices of a batch sharing a trimmed number are both held back. |
| RuleTable.FindingsAreTheTable | packages/domain/src/validation/validate.ts:79-444 | The findings of every upload are, in order, exactly the marks of a table over its uploaded cells: the code of each rule, the cell it points at and the line it is about, warnings included. |
| RuleTable.HeldBackByTheTable | packages/domain/src/validation/validate.ts:328-333 | An upload is submittable exactly when that table marks it with nothing but the four warnings. |
| RecalcFindings.RecalcOnlyRemovesTamper | packages/domain/src/validation/validate.ts:394-441 | Recalculation only removes tamper findings: with unique line ids, trimmed categories and stable rates, the findings of the recalculated invoice are, in order, the original ones minus overwritten cells, wrong rates on computable lines and overwritten totals. |
| RecalcFindings.SubmittableIsStable | packages/domain/src/validation/validate.ts:386-404 | A submittable invoice with unique line ids is one recalculation settles on. |
| RecalcFindings.RecalcKeepsSubmittable | packages/domain/src/calc.ts:29-33 | Of the arithmetic and the rules alone: recalculating a submittable invoice keeps it submittable if and only if no line spells S with stray spaces while carrying no readable rate, because the rules trim the category and the arithmetic does not. No upload holds such a line. |
| Uploads.ParsedIsTrimmed | apps/api/src/excel/parse.ts:302 | Every line of every invoice a workbook parses to has a category without stray spaces, through the join and the sort. |
| Uploads.StoredKeepsVerdict | apps/api/src/jobs/parseBatch.ts:115-139 | For every workbook: a row, synthetic ones included, that is judged as uploaded and inserted as submittable is stored with a recalculated payload that is submittable under the same context. |
| AutoFix.FixLineInPlace | packages/domain/src/autofix.ts:150-191 | The in-place rewriting of one line gives the specified line and the specified log. |
| AutoFix.FixInvoice | packages/domain/src/autofix.ts:67-212 | The whole pass gives the specified invoice and log: header rules, lines, renumbering, final recalculation. |
| AutoFix.AutoFixBatch | packages/domain/src/autofix.ts:64-213 | Over a batch, each invoice is fixed on its own and the logs are appended in order. |
| AutoFixRules.FieldsMean | packages/domain/src/autofix.ts:67-191 | Field by field over the input: what auto-fix writes for currency, rate, time, TRNs, emirate, type code, unit, category, VAT rate and discount, each alias with its own code, and that every other field is left alone. |
| AutoFixRules.LogTellsTheTruth | packages/domain/src/autofix.ts:70-207 | Every entry of the log names a field of this invoice or of one of its lines, with the text that stood there and the text that stands there now. |
| AutoFixLog.LogIsComplete | packages/domain/src/autofix.ts:67-212 | Replaying the whole batch's log on an original invoice gives its rewritten form, and recalculating that gives exactly the output. |
| AutoFixLog.NeverTouched | packages/domain/src/autofix.ts:108-118 | Names, dates, numbers, references, quantities, prices and descriptions are never touched; TRNs keep their characters in order apart from white space and hyphens. |
| AutoFixSettles.SecondRunIsQuiet | packages/domain/src/autofix.ts:67-212 | A second run reports no change and rewrites no field, for every invoice. |
| AutoFixSettles.SecondRunIsIdentity | packages/domain/src/autofix.ts:67-212 | With stable rates a second run returns its input. |
| AutoFixSettles.EmirateSettles | packages/domain/src/autofix.ts:38-62 | The canonical spelling of an emirate is its own canonical spelling. |
| AutoFixSettles.NumberingSettles | packages/domain/src/autofix.ts:194-207 | After renumbering, or leaving sound numbering alone, no line number is blank or repeated. |
| AutoFixSafe.FixKeepsSubmittable | packages/domain/src/autofix.ts:64-213 | Auto-fix never breaks a good invoice: with unique line ids, what is submittable before is submittable after, under the same context, for every invoice. |
| AutoFixSafe.LineSafe | packages/domain/src/autofix.ts:150-191 | An accepted line, fixed, renumbered and recalculated, is accepted against itself and has a known category. |
| Utf8.RoundTrip | packages/ubl/src/qr.ts:53 | Decoding UTF-8 undoes encoding, for every string of Unicode scalar values (section 3 of RFC 3629). |
| Utf8.BytesAreTheTables | packages/ubl/src/qr.ts:53 | Every character's bytes are those of the table in section 3 of RFC 3629: how many, how the first one starts, and where the bits are. |
| Utf8.DecodeStep | packages/ubl/src/qr.ts:90 | The decoder is total: on any non-empty bytes it consumes between one byte and all of them. |
| Utf8.TruncateIsLongest | packages/ubl/src/qr.ts:37-49 | No prefix within the byte limit is longer than the truncation. |
| Utf8.TruncateKeeps | packages/ubl/src/qr.ts:38 | Text is left alone exactly when it is within the limit. |
| Utf8.TruncateUtf8 | packages/ubl/src/qr.ts:37-49 | The loop over code points returns that truncation. |
| Base64.RoundTrip64 | packages/ubl/src/qr.ts:77 | Decoding base64 undoes encoding with padding, for all bytes (section 4 of RFC 4648). |
| Base64.EncodedGroup | packages/ubl/src/qr.ts:77 | Each group of three bytes, the short last one included, is encoded as its 24-bit number in base 64, most significant first, over the alphabet of section 4 of RFC 4648, with '=' for missing bytes. |
| Base64.EncodedLength | packages/ubl/src/qr.ts:77 | The encoding has four characters for every three bytes begun. |
| Qr.DecodePayload | packages/ubl/src/qr.ts:81-94 | The decoding loop terminates on any text, never leaves the buffer, and returns the fields the buffer spells. |
| Qr.PayloadRoundTrip | packages/ubl/src/qr.ts:65-94 | Decoding a built payload returns each of the five fields cut to its longest whole-character prefix of 255 bytes, for all invoices, names and timestamps. |
| Qr.FieldIsExact | packages/ubl/src/qr.ts:37-78 | Exactly five fields come back under tags 1 to 5: seller name, seller TRN, the timestamp supplied or else the issue date and time (midnight without one) in UTC form, the recalculated payable and VAT; each comes back unchanged if and only if it fits in 255 bytes. |
| Ubl.BuildInvoiceXml | packages/ubl/src/invoice.ts:79-315 | The builder, appending section by section with its loops over subtotals and lines, produces the specified tree of the recalculated invoice, whose every element UblReadBack.DocumentReadsBack reads back. |
| UblReadBack.DocumentReadsBack | packages/ubl/src/invoice.ts:79-315 | Every element of a built document, read back by name, occurs as often as it should and holds its own value: number, UUID, dates, type and currency; supplier and buyer each under their own party; references, payment means and exchange rate exactly when called for; totals, subtotals, and every cell of every line. |
| UblTotals.TotalsInDocument | packages/ubl/src/invoice.ts:222-249 | Each header amount element occurs once and holds the recalculated invoice's amount. |
| UblTotals.LinesInDocument | packages/ubl/src/invoice.ts:251-262 | The line amounts of the document are the lines' net amounts, in order. |
| UblTotals.SubtotalsInDocument | packages/ubl/src/invoice.ts:226-241 | The subtotal amounts of the document are those of the VAT grouping, in order. |
| UblTotals.DocumentAddsUp | packages/ubl/src/invoice.ts:222-262 | The document adds up: lines to LineExtensionAmount; with known categories subtotals to TaxExclusiveAmount and TaxAmount; the payable is net plus VAT. |
| UblTotals.DocumentInOrder | packages/ubl/src/invoice.ts:17-23 | All top-level elements are known to UBL 2.1 Invoice-2 and stand in schema order, whichever optional ones are present. |
| UblTotals.AdjustmentsReferBack | packages/ubl/src/invoice.ts:106-117 | An accepted credit or debit note refers to the document it adjusts if and only if its type code carries no stray spaces. |
| UblTotals.SpacedNoteLosesReference | packages/domain/src/validation/validate.ts:123-131 | Every accepted note has such a spelling: with a space after its type code it is still accepted, and its document has no billing reference. |
| Workbook.BuildColumnMap | apps/api/src/excel/parse.ts:141-159 | The loop over the header row builds the specified column map and lists the required columns it lacks. |
| Workbook.ColumnsAreFirst | apps/api/src/excel/parse.ts:145-152 | A field is read from the first column whose normalised header stands for it, wherever that column is. |
| Workbook.IndexIsFirst | apps/api/src/excel/parse.ts:250-256 | A line joins the first header row carrying its number; blank numbers join nothing. |
| Workbook.ReadHeaders | apps/api/src/excel/parse.ts:210-259 | Padding rows are skipped, the cap stops the reading exactly when it is passed, duplicates are warned about and kept. |
| Workbook.JoinLines | apps/api/src/excel/parse.ts:327-342 | Lines are pushed into their invoices or set aside, and every invoice's lines are sorted, as specified. |
| Workbook.ParseWorkbook | apps/api/src/excel/parse.ts:166-351 | The whole parse gives the specified result, its checks in the order the code makes them; what that result holds, cell by cell, is WorkbookCells.EveryFieldFromItsCell. |
| WorkbookCells.EveryFieldFromItsCell | apps/api/src/excel/parse.ts:206-315 | For every accepted workbook: each of the fourteen fields of each invoice, and each of the thirteen of each line, is the trimmed text of its row's cell under the first column with that field's own heading, or blank when there is none; invoices come from the rows something was typed into, in order. |
| WorkbookCells.AcceptedExactly | apps/api/src/excel/parse.ts:166-326 | A workbook is accepted if and only if both sheets are there, each has every heading required by name, and the rows typed into, headers and lines together, are within the cap. |
| WorkbookCells.DuplicatesAreWarned | apps/api/src/excel/parse.ts:248-257 | The parser warns of a number exactly as often as its invoices repeat it, and never of a blank one. |
| WorkbookResults.NothingLost | apps/api/src/excel/parse.ts:206-342 | For every accepted workbook each line row that is not padding is in exactly one place, each header row that is not padding gives one invoice, and their number is within the cap. |
| WorkbookResults.EveryLineInItsInvoice | apps/api/src/excel/parse.ts:327-342 | Each invoice holds exactly the lines that name its number, sorted, if it is the first header with that number, and none otherwise; the orphans are exactly the lines whose number no header carries, in sheet order. |
| WorkbookResults.LinesComeOutInOrder | apps/api/src/excel/parse.ts:335-342 | When all its line numbers are numeric, an invoice's lines come out by number, ties by source row. |
| WorkbookResults.GroupOrphans | apps/api/src/jobs/parseBatch.ts:75-82 | The map of lists gathers orphans by number in order of first appearance. |
| WorkbookResults.OrphansAllGrouped | apps/api/src/jobs/parseBatch.ts:75-113 | Every orphan is in exactly one group, and no number has two groups. |
| WorkbookCells.GroupsKeepOrder | apps/api/src/jobs/parseBatch.ts:75-82 | There is a group for exactly the numbers the orphans name, holding exactly the lines that name it, in their order. |
| WorkbookCells.SyntheticMeans | apps/api/src/jobs/parseBatch.ts:84-112 | What stands in for a missing header is an AED invoice at a rate of one under that number, with those lines recalculated and every typed field blank. |
| WorkbookResults.ParsedIsUpload | apps/api/src/jobs/parseBatch.ts:72-113 | With identifiers drawn once a row, everything handed to staging has unique line ids, and synthetic invoices have no type. |
| Patches.ApplyPatch | apps/api/src/modules/staging/routes.ts:147-198 | Splicing, merging and appending in turn gives the specified invoice and says whether anything changed. |
| StagingSteps.EditLeaves | apps/api/src/modules/staging/routes.ts:150-194 | Every header field is as given or as it was; of every line, in order, nothing is left if it is removed, its cells as given or as they were if it is edited, itself otherwise; then come the added lines, numbered on, on the template's defaults. |
| StagingSteps.NoChangeIsIdentity | apps/api/src/modules/staging/routes.ts:159-200 | An edit that reports no change leaves the invoice as it is. |
| Patches.PatchKeepsIds | apps/api/src/modules/staging/routes.ts:150-198 | Under every edit line ids stay unique and the invoice keeps its id. |
| StagingRules.EditConsistent | apps/api/src/modules/staging/routes.ts:128-236 | An inline edit keeps the staging invariant, although only the edited row is judged again. |
| StagingRules.EditKeepsOne | apps/api/src/modules/staging/routes.ts:55-74 | Counting the row's own number makes an edited row's number its own among the submittable rows. |
| StagingRules.RevalidateConsistent | apps/api/src/modules/staging/routes.ts:239-279 | Re-validating a batch keeps the staging invariant. |
| StagingRules.AutoFixConsistent | apps/api/src/modules/staging/routes.ts:291-341 | Auto-fixing a batch keeps the staging invariant. |
| StagingRules.NoColon | packages/domain/src/codes.ts:132 | A number that passes the format rule contains no colon. |
| StagingSteps.ParseMeans | apps/api/src/jobs/parseBatch.ts:47-145 | Refused when a row of the batch is an invoice; otherwise the batch is the upload's invoices and then the synthetic ones under new ids, each judged as uploaded and stored recalculated, logs and counters follow, and nothing else changes. |
| StagingSteps.EditMeans | apps/api/src/modules/staging/routes.ts:128-216 | Refused on an invoice's row and nothing when nothing changes; otherwise that row alone holds the edited payload, recalculated, with the verdict on it, and logs and counters follow. |
| StagingSteps.RevalidateMeans | apps/api/src/modules/staging/routes.ts:239-279 | Every open row is recalculated and judged again, rows that are invoices stay, and logs and counters follow. |
| StagingSteps.AutoFixMeans | apps/api/src/modules/staging/routes.ts:291-341 | An open row auto-fix has something to change on is fixed and judged again; every other row stays, and logs and counters follow. |
| StagingSteps.DeleteMeans | apps/api/src/modules/staging/routes.ts:363-380 | Refused on an invoice's row; otherwise the row and its log go, and the others close up. |
| StagingSteps.CountersCount | apps/api/src/modules/staging/service.ts:127-150 | The counters count rows, submittable rows and rows with an invoice, and the batch status is the one those numbers call for. |
| StagingSteps.SubmitMeans | apps/api/src/modules/staging/routes.ts:425-501 | A submission that goes through leaves such counters, and touches no log and no other batch. |
| StagingSteps.UploadNumberRule | apps/api/src/jobs/parseBatch.ts:56-70 | At parsing the number rules pass exactly when the trimmed number is well formed, no two uploaded invoices share it, and no live invoice holds it, which is asked only if some uploaded invoice spells it unspaced. |
| StagingSteps.BatchNumberRule | apps/api/src/modules/staging/service.ts:43-76 | At re-validation and auto-fix they pass exactly when the trimmed number is well formed, at most one row of the batch spells it so, and no live invoice holds it, which is asked only if some open row spells it so. |
| PromotionRules.ParseConsistent | apps/api/src/jobs/parseBatch.ts:47-145 | Replacing a batch by a parsed upload keeps the staging invariant. |
| PromotionRules.ParsedOnePerNumber | apps/api/src/jobs/parseBatch.ts:65-70 | An upload's own duplicates hold each other back, stray spaces or not, and synthetic rows are never submittable. |
| PromotionRules.DeleteConsistent | apps/api/src/modules/staging/routes.ts:363-389 | Deleting an open row keeps the staging invariant. |
| PromotionRules.SubmitConsistent | apps/api/src/modules/staging/routes.ts:425-501 | A submission, whole or aborted, keeps the staging invariant. |
| PromotionRules.ApproveConsistent | apps/api/src/modules/approvals/routes.ts:78-99 | Approving keeps the staging invariant. |
| PromotionRules.RejectConsistent | apps/api/src/modules/approvals/routes.ts:143-174 | Withdrawing keeps the staging invariant: each row reopens together with the loss of its invoice. |
| PromotionResults.AbortsWhenTaken | apps/api/src/modules/staging/routes.ts:439-496 | A submission aborts if and only if the tables refuse some chosen row, or its number is on an invoice already or on an earlier chosen row. |
| Columns.DigitNumbersFit | apps/api/src/modules/staging/routes.ts:474-482 | Of lines numbered by positive digit strings, the insert clashes if and only if two of them spell the same number. |
| Columns.CanonicalNumbersFit | apps/api/src/modules/staging/routes.ts:474-482 | Numbers written without leading zeros never clash as long as the texts differ, which is what the rules check. |
| Columns.AmountBytes | apps/api/src/db/migrations/0001_init.sql:259-264 | A printed amount that fits its NUMERIC(15, 2) column takes at most 17 bytes of UTF-8. |
| Columns.ColumnLimits | apps/api/src/db/migrations/0001_init.sql:250-316 | In figures: what quantity, unit price, amount, VAT rate and exchange rate columns take. |
| Samples.AcceptedButNeverInserted | apps/api/src/modules/staging/routes.ts:482 | From an empty database: an uploaded invoice whose lines are numbered 1 and 01 is submittable, and every submission that chooses it aborts. |
| PromotionResults.NeverCollidesWithItself | apps/api/src/modules/staging/routes.ts:425-501 | When the chosen numbers carry no stray spaces and the tables take the rows, it aborts if and only if one number is already on an invoice: a batch never collides with itself. |
| PromotionResults.RejectedNumberBlocksSubmission | apps/api/src/modules/staging/service.ts:46-54 | A rejected invoice does not make the rules object to its number, but any submission of a row with that number aborts. |
| PromotionResults.EditedNumberRule | apps/api/src/modules/staging/service.ts:43-76 | After an edit the number rules pass exactly when the trimmed number is well formed; if spelled without stray spaces, on no live invoice and on no other row; if spelled with them, on at most one other row without. |
| Samples.OneNumberTwice | apps/api/src/modules/staging/service.ts:62-76 | From an empty database: of two uploaded rows with different numbers, the second edited to the first one's number and a space, both are submittable under one trimmed number. |
| PromotionResults.WithdrawFreesNumber | apps/api/src/modules/approvals/routes.ts:154-171 | Withdrawing an invoice frees its number. |
| PromotionResults.RejectFreezes | apps/api/src/modules/approvals/routes.ts:145-171 | Rejection leaves every promoted row alone but those of the withdrawn invoices, and of these changes only the link. |
| Approvals.SubmissionMakes | apps/api/src/modules/staging/routes.ts:425-501 | A submission does nothing at all, or every row asked for carries a new invoice made of it, field by field, and every other row and invoice is untouched. |
| Approvals.SubmissionStopsAtTheGate | apps/api/src/modules/staging/routes.ts:467-470 | Every new invoice is validated in the caller's name when the caller may file, and waits with no approver when not. |
| Approvals.ApproveMeans | apps/api/src/modules/approvals/routes.ts:78-99 | Exactly the waiting invoices named are released in the approver's name, and nothing else changes. |
| Approvals.RejectMeans | apps/api/src/modules/approvals/routes.ts:143-174 | Exactly the waiting invoices named are gone, and no other changes. |
| TableRules.EditTallied | apps/api/src/modules/staging/service.ts:87-150 | An edit keeps counters equal to a recount and every row's log equal to its findings. |
| TableRules.RejectTallied | apps/api/src/modules/approvals/routes.ts:160-171 | Rejection, which refreshes no counter, still leaves totals exact and never makes the submitted count too low. |
| FilingRules.OtherStepMoves | apps/api/src/jobs/submitInvoice.ts:41-199 | Every step outside staging leaves rows, numbers, payloads and amounts alone and gives each invoice exactly the stated status and approver. |
| FilingRules.NextMoves | apps/api/src/modules/approvals/routes.ts:82-171 | Staging and approval steps create invoices at the gate or already approved, release or withdraw only waiting ones, and touch no other. |
| FilingRules.OneStep | apps/api/src/modules/approvals/routes.ts:82-99 | No step changes what is filed, none sends an invoice back to the gate, and only waiting invoices disappear. |
| FilingRules.OnlyAClosingWriteUndoes | apps/api/src/jobs/submitInvoice.ts:188-199 | A step takes an acceptance away if and only if it is the closing write of a job holding a non-retryable answer for that invoice. |
| FilingRules.SafeStep | apps/api/src/jobs/submitInvoice.ts:67-77 | If no accepting verdict is applied to an invoice while a job of its own may still write, then whenever it is accepted no such job is in flight: each step keeps this, whatever happens to other invoices. |
| FilingRules.PastGateStep | apps/api/src/jobs/submitInvoice.ts:72-77 | Jobs in flight and calls made are for invoices past the gate: every step keeps it, bypassing ones included. |
| FilingRules.GateStep | apps/api/src/jobs/submitInvoice.ts:72-77 | From a state in which past the gate means approved, a step keeps it if and only if it is not a platform retry of, nor a located and decided verdict on, a waiting invoice without an approver. |
| FilingRules.SolicitedVerdictsPass | apps/api/src/modules/webhooks/applyStatus.ts:79-91 | A verdict on an invoice the provider was sent never bypasses the gate. |
| FilingRuns.RunsStayConsistent | apps/api/src/modules/staging/routes.ts:143-501 | In every run: links, frozen payloads, unique numbers, one submittable row a number, exact counters and logs. |
| FilingRuns.PastTheGateForGood | apps/api/src/modules/approvals/routes.ts:82-99 | Over every run an invoice past the gate stays, never waits again, and keeps its row, number, UUID, payload and amounts. |
| FilingRuns.AcceptedForGood | apps/api/src/jobs/submitInvoice.ts:188-193 | Exactly when acceptance is permanent: an accepted invoice stays accepted in every continuation of a run if and only if no job that may still write its status, one past its read that holds no retryable answer, is in flight for it. |
| FilingRuns.AcceptanceIsPermanent | apps/api/src/modules/webhooks/applyStatus.ts:71-91 | In every interleaving of all steps an accepted invoice stays accepted, provided that no accepting verdict was applied to this invoice while a job of its own that had read it could still write its status. |
| FilingRuns.EveryCallIsApproved | apps/api/src/jobs/submitInvoice.ts:72-77 | In every run no step of which bypasses the gate, each provider call is for an invoice with an approver, although jobs may start on anything at any time and verdicts may come for anything past the gate. |
| Approvals.ApproverDidApprove | apps/api/src/modules/approvals/routes.ts:82-99 | In every run, whoever an invoice names as its approver released it from the queue while it waited, retried it, or submitted the batch it came from with the right to file. |
| Approvals.EveryCallWasSanctioned | apps/api/src/jobs/submitInvoice.ts:72-77 | In every run without a bypass each provider call is for an invoice that some user so released, retried, or submitted. |
| FilingJobs.GuardStops | apps/api/src/jobs/submitInvoice.ts:57-77 | Starting a job changes nothing when the invoice is accepted, with the provider, or waiting for approval. |
| FilingJobs.GuardLets | apps/api/src/jobs/submitInvoice.ts:57-77 | For an invoice with any other status the job starts, holding the record as it stands. |
| FilingJobs.CallsComeFromGuardedJobs | apps/api/src/jobs/submitInvoice.ts:62-77 | In every run each call is made by a job that started, and has been in flight ever since, on an invoice that was then neither accepted, nor with the provider, nor waiting. |
| FilingJobs.ArchivedBeforeCalled | apps/api/src/jobs/submitInvoice.ts:82-151 | In every run each call is for an invoice whose document was archived first. |
| FilingJobs.ArchivesOnce | apps/api/src/jobs/submitInvoice.ts:86 | A job that read an archived invoice replaces nothing. |
| FilingJobs.ClosingWrites | apps/api/src/jobs/submitInvoice.ts:165-227 | Answer by answer: the status, the logged attempt with its reference, the reference the next sweep asks about, and that no other invoice is touched. |
| FilingJobs.JobsAreTheirOwn | apps/api/src/jobs/submitInvoice.ts:41-230 | No step but a job's own moves it. |
| FilingJobs.RetryMeans | apps/api/src/modules/invoices/routes.ts:309-337 | A retry validates a validated, rejected or failed invoice in the caller's name and leaves any other alone. |
| FilingJobs.PlatformRetryMeans | apps/api/src/modules/admin/routes.ts:98-117 | The platform's retry validates anything but an accepted invoice and leaves the approver as it is. |
| FilingJobs.WebhookReaches | apps/api/src/modules/webhooks/applyStatus.ts:34-142 | A webhook under any one identifier, id, UUID, number or logged reference, reaches its invoice: the status it takes, the attempts it marks, and that nothing else changes. |
| FilingJobs.DeliveredOnce | apps/api/src/modules/webhooks/routes.ts:55-66 | A delivery is recorded the first time only, and once processed it does nothing. |
| FilingJobs.PollMeans | apps/api/src/jobs/pollStatus.ts:58-84 | The answer to a poll: the status the invoice takes, and that only accepted attempts under the reference asked about are marked. |
| FilingJobs.SweepsAskAboutSubmitted | apps/api/src/jobs/pollStatus.ts:33-45 | In every run a sweep asks only about an invoice that was with the provider when selected, under its last logged reference. |
| FilingRuns.BypassBreaksTheGate | apps/api/src/modules/admin/routes.ts:112-116 | The condition is exact: after a run without a bypass, the next step leaves the gate intact if and only if it is none. |
| FilingFrozen.RowsAndInvoicesPaired | apps/api/src/modules/staging/routes.ts:425-501 | In every reachable state promoted rows and invoices correspond one to one. |
| FilingFrozen.OneSubmittableRowPerNumber | apps/api/src/modules/staging/routes.ts:55-74 | In every reachable state a number without stray spaces is on at most one submittable row of a batch. |
| FilingFrozen.FrozenUntilWithdrawn | apps/api/src/modules/staging/routes.ts:143-147 | Whatever step comes next, a promoted row is still there unchanged, unless the step withdraws its own waiting invoice; then it is there with the same payload, open. |
| FilingArchive.FiledAsShown | apps/api/src/modules/staging/routes.ts:442-471 | In every reachable state, for every promoted row: the invoice's amounts, the totals of the archived UBL document and those of the archived QR payload, read back uncut, are the totals of the row's payload. |
| FilingArchive.ArchivesInRuns | apps/api/src/jobs/submitInvoice.ts:86-130 | In every run each archived document was made from the invoice's own payload, whichever job archived it. |
| FilingArchive.FiledUnderItsOwnName | apps/api/src/jobs/submitInvoice.ts:86-130 | In every run whatever is archived for an invoice shows that invoice's own number, UUID and buyer, and one seller in document and QR payload alike. |
| FilingKeys.AttemptsShareAKey | apps/api/src/jobs/submitInvoice.ts:147-151 | In every run all attempts to file one invoice use the same idempotency key, retries and stray verdicts included. |
| FilingKeys.KeysTellInvoicesApart | apps/api/src/jobs/submitInvoice.ts:147-151 | In every run attempts to file different invoices never share a key. |
| FilingKeys.OneRecordPerInvoice | apps/api/src/jobs/submitInvoice.ts:147-151 | One filing per invoice: of two records held for calls of any run, made without overlap, the provider holds one and the same if and only if the calls were for one invoice. |
| FilingVerdicts.VerdictsConfluent | apps/api/src/modules/webhooks/applyStatus.ts:71-91 | Folding any sequence of verdicts gives accepted if any accepts, else rejected if any rejects, else no change; a terminal status stays. |
| FilingVerdicts.OrderDoesNotMatter | apps/api/src/modules/webhooks/applyStatus.ts:71-91 | Sequences holding the same verdicts, reordered or repeated, give the same status. |
| FilingVerdicts.FewApplied | apps/api/src/modules/webhooks/applyStatus.ts:35 | Of any sequence of verdicts at most two are applied. |
| FilingVerdicts.AtMostTwoApplied | apps/api/src/jobs/pollStatus.ts:70-84 | In any stretch of a run without a retry or a closing write of the invoice, at most two verdicts are applied to it, by whatever route they come. |
| FilingVerdicts.RedeliveryIsHarmless | apps/api/src/modules/webhooks/routes.ts:55-66 | Delivering and processing again what has been processed changes nothing. |
| FilingVerdicts.FastVerdictIsOverwritten | apps/api/src/jobs/submitInvoice.ts:188-193 | Without the proviso acceptance is lost: a webhook naming the UUID and number of the document, received and processed before the closing write of the job that filed it, is overwritten by that write. |
| FilingVerdicts.PlatformRetryBypassesTheGate | apps/api/src/modules/admin/routes.ts:112-116 | After the platform retries a waiting invoice a job reaches the provider with no approver on record. |
| FilingVerdicts.UnsolicitedVerdictBypassesTheGate | apps/api/src/modules/webhooks/applyStatus.ts:47-91 | So does a job after a webhook, echoing its UUID and number, refuses an invoice that was never sent. |
| Desk.Desk.ParseBatchJob | apps/api/src/jobs/parseBatch.ts:47-145 | The job's loop of inserts and log writes is the specified step, and refuses exactly a batch with promoted rows. |
| Desk.Desk.PatchRow | apps/api/src/modules/staging/routes.ts:128-216 | The handler's sequence of reads, refusals and writes is the specified step. |
| Desk.Desk.RevalidateRows | apps/api/src/modules/staging/routes.ts:239-279 | The handler's loop over open rows is the specified step; it reports how many rows were open and how many of them are valid now. |
| Desk.Desk.AutoFixOpenRows | apps/api/src/modules/staging/routes.ts:291-341 | The handler rewrites exactly the open rows auto-fix changes, and reports their number. |
| Desk.Desk.DeleteStagedRow | apps/api/src/modules/staging/routes.ts:363-380 | The handler removes an open row and its log, and no promoted one. |
| Desk.Desk.SubmitRows | apps/api/src/modules/staging/routes.ts:425-516 | The loop of inserts is the specified step; new invoices are validated in the caller's name when the caller may file and wait with no approver when not; the promoted ids are exactly the new ones, in order; jobs are queued for them exactly when the caller may file; the reasons are exactly the selected open rows with errors; a rollback reports nothing. |
| Desk.Desk.ApproveQueue | apps/api/src/modules/approvals/routes.ts:78-101 | The loop over the queue is the specified step; it reports exactly the waiting invoices among those named. |
| Desk.Desk.RejectQueue | apps/api/src/modules/approvals/routes.ts:143-177 | The loop over the queue is the specified step; it reports exactly the waiting invoices among those named, and they are gone. |
| Desk.Desk.RetryFiling | apps/api/src/modules/invoices/routes.ts:309-337 | A retry goes through exactly for validated, rejected and failed invoices. |
| Desk.Desk.PlatformRetryFiling | apps/api/src/modules/admin/routes.ts:98-117 | The platform's retry is refused only for accepted invoices. |
| Desk.Desk.ReadAndGuard | apps/api/src/jobs/submitInvoice.ts:41-77 | The job's read and its guards are the specified step, and it goes on exactly for an invoice that is there and neither accepted, nor with the provider, nor waiting for approval. |
| Desk.Desk.Archive | apps/api/src/jobs/submitInvoice.ts:82-130 | The job archives once, before it transmits. |
| Desk.Desk.ClosingWrite | apps/api/src/jobs/submitInvoice.ts:165-227 | The closing write logs the attempt, writes the status, and asks for another try exactly when the answer was retryable. |
| Desk.Desk.SubmitInvoiceJob | apps/api/src/jobs/submitInvoice.ts:41-230 | A whole undisturbed job is its four steps in a row for an invoice neither accepted, nor with the provider, nor waiting for approval, and nothing for any other; it asks for another try exactly on a retryable answer. |
| Desk.Desk.ApplyStatusUpdate | apps/api/src/modules/webhooks/applyStatus.ts:34-142 | Applying a verdict is the specified step and reports exactly whether it was applied. |
| Desk.Desk.ReceiveDelivery | apps/api/src/modules/webhooks/routes.ts:55-86 | A new delivery is recorded, applied and noted; a known one changes nothing. |
| Desk.Desk.PollStatus | apps/api/src/jobs/pollStatus.ts:24-94 | The sweep is one run of steps: it selects the first hundred silent invoices with the provider, then asks about each that has a logged reference, in order, and applies every decided answer; it reports how many were selected and how many decided. |
| Provider.HashToUnitInterval | apps/api/src/modules/asp/mockDriver.ts:69-76 | The loop computes 32-bit FNV-1a over the UTF-16 units of the key, scaled to the unit interval. |
| Provider.FnvExamples | apps/api/src/modules/asp/mockDriver.ts:69-76 | It gives the published FNV-1a values of the empty text, "a" and "fo". |
| Provider.EndingMeans | apps/api/src/modules/asp/mockDriver.ts:96-131 | A key that rolls above 0.97 is asked to try again and leaves no trace; any other is recorded under its reference, refused exactly below the rejection rate, for one of four reasons picked by the roll. |
| Provider.MockDriver.Begin | apps/api/src/modules/asp/mockDriver.ts:87-92 | A known key is answered at once with its reference; any other call waits. |
| Provider.MockDriver.Finish | apps/api/src/modules/asp/mockDriver.ts:96-131 | A waiting call ends as specified: a failing key tries again, any other is recorded under the new reference. |
| Provider.MockDriver.GetStatus | apps/api/src/modules/asp/mockDriver.ts:197-215 | No record, not yet, cleared or refused, exactly by what is recorded and when. |
| Provider.OneFilingPerKey | apps/api/src/modules/asp/mockDriver.ts:87-131 | With calls that do not overlap for a key, the provider never holds two records of one key. |
| Provider.AttemptsAgree | apps/api/src/modules/asp/mockDriver.ts:87-131 | Every accepted attempt for a key is given the same reference, whatever lies between. |
| Provider.SameKeySameVerdict | apps/api/src/modules/asp/mockDriver.ts:107-124 | Records of one key agree on the verdict even when the calls that made them overlapped. |
| Provider.FailingKeyNeverRecorded | apps/api/src/modules/asp/mockDriver.ts:98-105 | A key that fails once fails at every attempt and is never recorded. |
| Provider.OverlapFilesTwice | apps/api/src/modules/asp/mockDriver.ts:89-96 | Two overlapping calls for a new key leave two records of it. |
| Provider.KeysAreInjective | apps/api/src/jobs/submitInvoice.ts:150 | Keys of one tenant are equal only for equal numbers and UUIDs, since no number holds a colon. |

## Left out

- Today and the threshold for large simplified invoices are parameters of the validation context.
- Text beyond ASCII letters keeps its case, and characters are Unicode scalar values: lone surrogates do not occur.
- Fields are always text: absent and null fields, and inherited property names used as codes, are not modelled.
- Finding messages keep their rule and the values they interpolate, not their wording; JSON paths and auto-fix reasons are dropped.
- Workbook.ParseWorkbook: cells arrive as text, because reading dates, times and formulas out of ExcelJS cells is foreign code; the numeric reading of a line number is a parameter, and the engine's sort is any stable sort by the same comparison.
- Desk.Desk.AutoFixOpenRows: matches a fixed invoice to its row by position where the code matches by payload id, which is drawn at random and never repeated.
- Validate.DateFindings: which well-shaped dates are days is the runtime's Date.parse, a function in the validation context; that a day it takes exists in the calendar is not shown.
- PromotionResults.AbortsWhenTaken: the widths of the numeric columns and the constraint on line numbers are modelled; which texts cast to dates, times, numbers and bounded strings is a parameter of the submission, and so is how a line number reads as a number. The line items themselves are not stored.
- Base64.RoundTrip64: of Node.js leniency only skipping foreign characters, accepting the URL-safe alphabet and stopping at the first padding character are modelled.
- Desk.Desk.PollStatus: which invoices have been silent long enough is a parameter, and ids are ordered as they were drawn; a failing provider call, which the sweep logs and skips, counts as a pending answer.
- Provider.MockDriver.Finish: when a verdict falls due is a parameter, and a key's place in the unit interval is the exact quotient, not its nearest double.
- The queue: jobs may start on any invoice at any time, which covers every queue, duplicate and stray job; back-off, attempts and job ids are dropped.
- Row-level security, several tenants, roles, sessions, HTTP, logging, audit writes and the tenant's activation checks.
- XML text, namespaces, escaping and the storage bucket: documents are trees of elements, the archive is a field of the invoice.
- The generic REST driver, webhook signatures and body parsing, delivery of the provider's own callbacks.
- The portal, seeds, migrations and configuration.

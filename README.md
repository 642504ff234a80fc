# Bank-statement reader: a verified model of its core

The bank-statement reader lets a user upload a monthly PDF statement. A FastAPI endpoint
checks the upload, extracts the text, has a language model turn it into transactions and
validates them against a schema. A React page then shows summary statistics and a table of
the transactions, and a utility exports them to a two-sheet spreadsheet.

This project models, in Dafny, the parts of that system with precise behaviour:

- **Upload controller** (`controller.dfy`, module `Controller`): the page's four state
  cells `file`, `loading`, `error` and `data` as fields of the class `UploadController`. The
  handlers `HandleFileChange`, `HandleExtract` and `HandleReset` change them. The page
  derives `ExtractEnabled`, `ShowsUploadCard` and `ShowsError` from them. The HTTP round
  trip is a `Reply` parameter: a successful body, a non-ok response with an optional
  `detail`, or a thrown error's message. Three user-event methods (`SelectFile`,
  `ClickExtract`, `ClickUploadNew`) call the handlers only where the page offers them. They
  prove that the state between events is `Settled`: nothing is in flight, and an error and
  a result are never held together.
- **Credit/debit split** (`sequences.dfy`, `transactions.dfy`): `Filter` models
  `Array.prototype.filter`. `Credits`, `Debits` and `Zeros` split a list by the sign of the
  amount.
- **Spreadsheet export** (`export.dfy`, module `Export`): `toRows` and
  `exportTransactionsToExcel` up to the workbook handed to the spreadsheet library, with its
  two sheets and the file name.
- **Summary bar** (`stats.dfy`, module `Stats`): the count and the two left-fold totals.
  They are proved equal to reference sums of the positive and negative parts of the amounts.
- **Transactions table** (`table.dfy`, module `Table`): one displayed row per transaction,
  with the sign prefix, colour, magnitude, badge and palette.
- **Upload endpoint** (`routes.dfy`, module `Routes`): `create_upload_file`. It does the
  content-type and size checks, then runs the three pipeline stages. Each stage is a
  function parameter that returns a value or raises an `Exception`. Exceptions map to HTTP
  statuses and details. A pure function gives the response. The method `CreateUploadFile`
  does the same step by step on an `UploadFile` object that records whether it was read and
  closed.

Amounts are exact `real` numbers. The source uses JavaScript and Python floats.

The page has no search, category filter or sorting: the table renders the list it is
given, in order.

## Model

| member | source | states |
|---|---|---|
| `Sequences.Filter` | web/src/utils/exportToExcel.js:13-14 | the result is no longer than the input and every kept element satisfies the predicate |
| `Sequences.KeptPositions` | web/src/utils/exportToExcel.js:13-14 | the kept positions are in range, strictly increasing, hold elements satisfying the predicate, and include every such position |
| `Sequences.FilterAtKeptPositions` | web/src/utils/exportToExcel.js:13-14 | the k-th element of the filtered list is the input element at the k-th kept position: exactly the matching elements, in input order |
| `Sequences.FilterConcat` | web/src/utils/exportToExcel.js:13-14 | filtering distributes over concatenation |
| `Sequences.FilterMembership` | web/src/utils/exportToExcel.js:13-14 | an element is kept iff it occurs in the input and satisfies the predicate |
| `Sequences.FilterMultiplicity` | web/src/utils/exportToExcel.js:13-14 | a kept element occurs as often as in the input; any other element does not occur |
| `Wrappers.Option.GetOr` | web/src/utils/exportToExcel.js:8 | the `??` operator: the value when present, otherwise the fallback |
| `Transactions.Credits` | web/src/utils/exportToExcel.js:13 | a line is in the credit list iff it is in the input and its amount is positive |
| `Transactions.Debits` | web/src/utils/exportToExcel.js:14 | a line is in the debit list iff it is in the input and its amount is negative |
| `Transactions.SignPartition` | web/src/utils/exportToExcel.js:13-14 | credits, debits and zero-amount lines together are a permutation of the input; credits and debits share no line |
| `Transactions.NoLineDroppedIffNoZero` | web/src/utils/exportToExcel.js:13-14 | credits and debits together number at most the input lines, and exactly as many iff no amount is zero |
| `Export.CategoryLabel` | web/src/utils/exportToExcel.js:9 | the label is "DIRECT" iff is_direct, and "TOYYIBPAY" iff not |
| `Export.Cells` | web/src/utils/exportToExcel.js:5-9 | a row has one cell per column; the cell under each header holds that field (Date the date, Transaction the transaction, Amount the amount, Description the description, Category the category), and only the Amount cell is numeric |
| `Export.LineCells` | web/src/utils/exportToExcel.js:4-9 | a line's sheet cells are, in column order, its date, its transaction, its amount, its description or "", and "DIRECT" or "TOYYIBPAY" by is_direct |
| `Export.ToRow` | web/src/utils/exportToExcel.js:4-9 | date, transaction and amount are copied unchanged; a null or absent description becomes "", any other is kept; the category is "DIRECT" iff is_direct, otherwise "TOYYIBPAY" |
| `Export.ToRows` | web/src/utils/exportToExcel.js:3-10 | one row per transaction, the i-th row being the row of the i-th transaction |
| `Export.ExportTransactionsToExcel` | web/src/utils/exportToExcel.js:12-23 | two sheets, "Credit" then "Debit", holding the rows of the credits and of the debits; the file name is the given name, or "transactions", followed by ".xlsx" |
| `Export.SheetRowsAreKeptLines` | web/src/utils/exportToExcel.js:13-17 | the k-th row of each sheet is the row of the input line at the k-th position with a positive (negative) amount |
| `Export.SheetAmountSigns` | web/src/utils/exportToExcel.js:13-14 | every Credit row has a positive amount and every Debit row a negative one |
| `Export.ExportedRowCount` | web/src/utils/exportToExcel.js:13-17 | the sheets hold all input lines but the zero-amount ones, and every line iff no amount is zero |
| `Stats.SumFrom` | web/src/components/StatsBar.jsx:28 | the `reduce` left fold from an initial sum equals that sum plus the sum of all amounts |
| `Stats.SumConcat` | web/src/components/StatsBar.jsx:28 | the sum of a concatenation is the sum of its parts |
| `Stats.SumFromAddsLastAmountLast` | web/src/components/StatsBar.jsx:28 | the fold adds the amounts in list order: folding a list is folding all but its last line, then adding the last amount |
| `Stats.SumBounds` | web/src/components/StatsBar.jsx:26-32 | a sum of positive amounts is non-negative; a sum of negative amounts is non-positive |
| `Stats.TotalCredits` | web/src/components/StatsBar.jsx:26-28 | totalCredits is never negative, and is 0 for an empty list |
| `Stats.TotalDebits` | web/src/components/StatsBar.jsx:30-32 | totalDebits is never positive, and is 0 for an empty list |
| `Stats.Abs` | web/src/components/StatsBar.jsx:22-23 | the shown magnitude is non-negative and equals the value or its negation |
| `Stats.StatsBar` | web/src/components/StatsBar.jsx:25-38 | the count is the list length, zero-amount lines included; the cards show the credit total and the debit total without its sign |
| `Stats.PositivePart` | web/src/components/StatsBar.jsx:26-28 | the reference sum of the positive amounts is non-negative |
| `Stats.NegativePart` | web/src/components/StatsBar.jsx:30-32 | the reference sum of the negative amounts is non-positive |
| `Stats.CreditsArePositivePart` | web/src/components/StatsBar.jsx:26-28 | totalCredits (filter then left fold) equals the sum of exactly the positive amounts |
| `Stats.DebitsAreNegativePart` | web/src/components/StatsBar.jsx:30-32 | totalDebits equals the sum of exactly the negative amounts |
| `Stats.TotalsSigns` | web/src/components/StatsBar.jsx:26-32 | totalCredits >= 0 and totalDebits <= 0; both are 0 for an empty list; totalCredits > 0 iff some amount is positive, totalDebits < 0 iff some amount is negative |
| `Stats.TotalsConcat` | web/src/components/StatsBar.jsx:26-32 | both totals are additive over concatenation |
| `Stats.ZeroLineChangesNoTotal` | web/src/components/StatsBar.jsx:27-36 | inserting a zero-amount line changes neither total but raises the count by one |
| `Stats.TotalsAddUpToNet` | web/src/components/StatsBar.jsx:26-32 | the two totals add up to the left-fold sum of all amounts |
| `Table.RenderRow` | web/src/components/TransactionsTable.jsx:27-50 | the key is the position; the prefix is "+" iff amount > 0, else "-"; green iff amount > 0; the magnitude is non-negative; the badge is "DIRECT" iff is_direct, else "TOYYIBPAY"; blue iff is_direct |
| `Table.RenderFrom` | web/src/components/TransactionsTable.jsx:26 | one displayed row per transaction, the i-th for the i-th transaction |
| `Table.TransactionsTable` | web/src/components/TransactionsTable.jsx:26-52 | as many rows as transactions; the i-th row is the rendering of the i-th transaction at key i (sign, colour, magnitude, badge and palette included) |
| `Table.ShownValueRoundTrip` | web/src/components/TransactionsTable.jsx:3-4 | the prefix and the absolute value together give back the amount, zero included |
| `Table.ZeroShownAsDebit` | web/src/components/TransactionsTable.jsx:35-36 | a zero amount shows as "-", red, magnitude 0 |
| `Table.TableAgreesWithExport` | web/src/components/TransactionsTable.jsx:29-48 | each table row and its export row agree on date, transaction, description, category label and signed amount |
| `Routes.ErrorResponse` | app/api/routes.py:36-41 | 400 iff PDFParserError, 422 iff AIExtractionError, 500 iff any other exception (SchemaValidationError included), with detail prefixes "error parsing file: ", "error extracting data: ", "internal server error: " before the message |
| `Routes.RunPipeline` | app/api/routes.py:31-35 | the pipeline returns iff extract, then generate on its text, then validate on its data all return, and it returns the validated statement; otherwise it raises the exception of the first stage that raised |
| `Routes.StagesRun` | app/api/routes.py:31-33 | the stages that start are a non-empty prefix of extract, generate, validate; generate starts iff extract returns; validate starts iff extract and generate return |
| `Routes.CreateUploadFileResponse` | app/api/routes.py:18-41 | a non-PDF type gives 400 "invalid file type. only PDF is supported"; a PDF over MAX_SIZE gives 400 "file size exceeds limit"; the response is Ok iff both checks pass and the pipeline returns, and then holds the validated statement; error statuses are 400, 422 or 500 |
| `Routes.ContentTypeCheckedFirst` | app/api/routes.py:22-23 | for a non-PDF upload the response does not depend on the bytes or the stages |
| `Routes.SizeCheckedBeforePipeline` | app/api/routes.py:27-28 | for an oversize PDF the response does not depend on the stages |
| `Routes.SizeLimitBoundary` | app/api/routes.py:8 | exactly 16 MiB is not rejected for size; one byte more is |
| `Routes.DetailsDistinguishCauses` | app/api/routes.py:36-41 | status and detail of a pipeline error read back as its exception group and message, never as an early rejection |
| `Routes.ResponseDiagnosis` | app/api/routes.py:22-41 | every error response of the endpoint reads back as its cause: wrong type, too large, or the raised exception's group and message |
| `Routes.UploadFile.constructor` | app/api/routes.py:18 | a new upload is neither read nor closed |
| `Routes.UploadFile.Read` | app/api/routes.py:25 | reading returns the uploaded bytes and marks the file read |
| `Routes.UploadFile.Close` | app/api/routes.py:42-43 | closing marks the file closed |
| `Routes.CreateUploadFile` | app/api/routes.py:18-43 | returns the response of CreateUploadFileResponse; reads the file iff its type is PDF; closes it iff both checks pass; runs no stage on an early rejection and exactly StagesRun otherwise |
| `Controller.UploadController.constructor` | web/src/App.jsx:18-21 | no file, not loading, no error, no data |
| `Controller.UploadController.ExtractEnabled` | web/src/App.jsx:131 | the Extract button is enabled iff a file is selected and no extraction is loading |
| `Controller.UploadController.ShowsUploadCard` | web/src/App.jsx:60 | the full upload card is shown iff there is no result |
| `Controller.UploadController.ShowsError` | web/src/App.jsx:123 | an error is rendered only when one is set; an empty error message renders nothing; any non-empty one is rendered |
| `Controller.UploadController.HandleFileChange` | web/src/App.jsx:23-27 | file becomes the first accepted file or None; error and data are cleared; loading is unchanged |
| `Controller.UploadController.HandleExtract` | web/src/App.jsx:29-47 | with no file nothing changes; otherwise loading ends false and the file is kept; success stores the body and clears the error; a non-ok reply sets the error to detail when present (even "") or "Something went wrong"; a thrown error sets its message; data is untouched on failure |
| `Controller.UploadController.HandleReset` | web/src/App.jsx:49-53 | file, data and error are cleared together; loading is unchanged |
| `Controller.UploadController.SelectFile` | web/src/App.jsx:80-84 | picking a file keeps the page settled and shows no error; the extract button is enabled iff a file was accepted |
| `Controller.UploadController.ClickExtract` | web/src/App.jsx:130-137 | an enabled click leaves the page settled with the button usable again; the upload card disappears iff the reply is a success; any other reply leaves an error |
| `Controller.UploadController.ClickUploadNew` | web/src/App.jsx:161-169 | resetting from the result view shows the upload card again, with extraction disabled and no error |

## Left out

- The language-model call, its prompt and the JSON decoding of its answer (`app/services/ai.py`). They are foreign calls. `generate_formatted_data` becomes the `generate` stage parameter.
- PDF text extraction and OCR (`app/services/pdf_parser.py`, `receipt_parser.py`, `image_parser.py`). They wrap foreign libraries. `extract_text_from_pdf` becomes the `extract` stage parameter. As written, that function never raises `PDFParserError` itself, so a corrupt PDF gets 500 and not 400. The model lets any stage raise any exception class, as the handler allows.
- Pydantic validation (`validate_json_with_schema`) becomes the `validate` stage parameter.
- Authentication, the database and the app wiring (`app/auth`, `app/db`, `app/main.py`). They are not part of the upload core.
- Python exceptions outside `Exception`, such as a cancelled request, are not modelled. They escape all three `except` clauses.
- `fetch`, `FormData`, JSON parsing and the async suspension in `handleExtract`. Each extraction is one atomic step ending in its `Reply`. A response that arrives after a reset, and so refills the page, is not modelled.
- Controller.UploadController.HandleExtract: a non-string `detail`, such as FastAPI's list of validation errors, is modelled only as the string the `Error` constructor makes of it. A thrown value without a `message` is not modelled.
- Controller.UploadController.HandleExtract: a response body of JSON `null` is not modelled. It would leave `data` falsy.
- Workbook building and writing in the spreadsheet library (`json_to_sheet`, `book_new`, `writeFile`). Only the sheet names, their rows and the file name are modelled.
- Currency formatting with `toLocaleString("en-MY", ...)`. It is locale behaviour. Amounts are shown as their exact magnitude.
- Floating-point rounding of amounts and of the two totals. Amounts are exact reals.
- JSX markup and styling, other than the sign, colour, badge and palette choices.

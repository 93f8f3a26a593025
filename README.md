# Bank statement extractor: session and CSV export

This project models the core of a single-page bank statement extractor.
A user picks one of nine Colombian banks and an export entity tag (GVAL or VEDU).
They then paste the statement text or upload a PDF, and send it to an extraction service that returns a list of transactions.
Each transaction has a date, a detail, a movement and a balance.
The list can be exported as a pipe-separated CSV file.

The model covers these parts:

- **Types** (`types.dfy`, `constants.dfy`): the transaction record, the `Bank` and `EntityOption` enumerations with their exact labels, and the two option lists the selectors offer.
- **Text** (`text.dfy`) and **Amount** (`amount.dfy`): the string operations the handlers rely on.
  - ECMAScript `trim`.
  - Replacing each character matched by `/\s/` with `_`.
  - `join`.
  - Single-character `split` and a field scan (`Split`, `TakeUntil`). The application never splits; these exist only for the reader below and the round-trip lemmas.
  - `toFixed(2)` followed by replacing the decimal point with a comma. Amounts are integer cents.
- **CsvExport** (`csv_export.dfy`): the export handler.
  - An empty list is refused with "No transactions to export.".
  - Otherwise the file is a byte-order mark, the header `Fecha|Detalle|Movimiento|Saldo|Entidad`, then one row per transaction, joined by `\n` with no trailing newline.
  - Each row is `date|"detail"|movement|balance|entity`. Quotes inside the detail are doubled.
  - The file name is `extracto_<bank, whitespace as _>_<YYYY-MM-DD>.csv`.
- **CsvDecode** (`csv_decode.dfy`): a reader for that file: the inverse of the encoder, used only in the round-trip lemmas. It is not part of the repository.
  - It undoes the quote doubling and the decimal-comma formatting.
  - The round-trip lemmas show that every transaction, its order and its entity tag survive the export. This needs only that no date holds a `|`; the detail may hold anything.
- **AppSession** (`session.dfy`): the component state as a class `Session` with one field per state variable. Each UI handler is a method; its contract states the whole new state as an update of the old snapshot.
  - Every handler keeps the invariant `Valid()`:
    - nothing is listed while an extraction is in flight;
    - a kept file is a PDF;
    - only the current tab's input source is non-empty.
  - The process and export button guards (`IsProcessDisabled`, `IsExportDisabled`) are tied to the handlers' own guards by lemmas.

The extraction service is not modelled. Its answer is the `ExtractionOutcome` parameter of the process handler:

- a list of transactions;
- a thrown `Error` with its message;
- something thrown that is not an `Error`.

The current time is the `isoNow` parameter (the ISO-8601 timestamp the file name is cut from).

Switching tabs clears only the other input source and the error; the extracted list is kept (App.tsx:131, App.tsx:134). `SelectTextTab` and `SelectFileTab` state this.

## Model

| member | source | states |
|---|---|---|
| Types.BankLabel | types.ts:9-19 | the nine labels as declared; Types.BankFromLabel and Types.BankLabelRoundTrip read them back and Types.BankLabelInjective proves them distinct |
| Types.BankOrdinal | types.ts:9-19 | each bank's position in the declaration is below 9; Types.BankOrdinalInjective proves the positions distinct and Constants.BanksComplete proves that BANKS[i] has position i |
| Types.BankOrdinalInjective | types.ts:9-19 | distinct banks have distinct positions |
| Types.BankFromLabel | types.ts:9-19 | a label maps back to the bank carrying it, and to nothing when no bank carries it |
| Types.BankLabelRoundTrip | types.ts:9-19 | reading back a bank's label gives that bank |
| Types.BankLabelInjective | types.ts:9-19 | no two banks share a label |
| Types.EntityLabel | types.ts:21-24 | the tags "GVAL" and "VEDU"; Types.EntityFromLabel and Types.EntityLabelRoundTrip read them back |
| Types.EntityFromLabel | types.ts:21-24 | a tag maps back to the entity carrying it, and to nothing otherwise |
| Types.EntityLabelRoundTrip | types.ts:21-24 | reading back an entity's tag gives that entity |
| Constants.BanksComplete | constants.ts:4-14 | the bank list has nine entries, holds every bank exactly once in declaration order, starts with Banco Popular and ends with Banco Agrario |
| Constants.EntityOptionsComplete | constants.ts:16-19 | the entity list is GVAL then VEDU, and holds every entity |
| Constants.InitialSelectionsOffered | App.tsx:11-12 | the initial bank and entity are among the options the selectors offer |
| Text.IsWhitespace | App.tsx:35 | the ECMAScript WhiteSpace and LineTerminator characters, which both `trim` (App.tsx:35) and `/\s/` (App.tsx:77) match; its properties are stated through Text.Trim and Text.ReplaceWhitespace |
| Text.Trim | App.tsx:35 | the trimmed text is empty exactly when every character is whitespace; otherwise it neither starts nor ends with whitespace |
| Text.TrimIsInfix | App.tsx:35 | the trimmed text is one contiguous piece of the input with only whitespace before and after it |
| Text.TrimStart | App.tsx:35 | removes exactly the leading whitespace: what it drops is whitespace and what it keeps is a suffix that does not start with whitespace |
| Text.TrimEnd | App.tsx:35 | removes exactly the trailing whitespace: what it drops is whitespace and what it keeps is a prefix that does not end with whitespace |
| Text.ReplaceWhitespace | App.tsx:77 | same length; every whitespace character becomes '_', every other character is kept, and none is left |
| Text.Join | App.tsx:68 | Array.prototype.join with a one-character separator; Text.SplitJoin and Text.JoinSplit prove it inverse to Text.Split, and Text.NotInJoin that it adds only the separator |
| Text.SplitJoin | App.tsx:68 | splitting a join of separator-free parts gives the parts back |
| Text.JoinSplit | App.tsx:68 | joining a split gives the string back |
| Text.NotInJoin | App.tsx:71 | a join holds no character, other than the separator, that none of its parts hold |
| Amount.FormatAmount | App.tsx:64-65 | `toFixed(2)` with the '.' replaced by ','; Amount.AmountRoundTrip proves it readable back, Amount.FormatAmountShape fixes its layout and the examples fix concrete values |
| Amount.NatDigits | App.tsx:64-65 | the integer part is a non-empty digit string with no leading zero |
| Amount.DigitsRoundTrip | App.tsx:64-65 | the integer part's digits read back as the number |
| Amount.AmountRoundTrip | App.tsx:64-65 | reading back a formatted amount gives the amount in cents |
| Amount.FormatAmountShape | App.tsx:64-65 | a formatted amount has a comma third from the end, a '-' exactly when negative, and digits everywhere else |
| Amount.AmountHasNoSeparators | App.tsx:64-65 | a formatted amount holds no '.', no pipe, no newline and no quote |
| Amount.AmountExampleNegative | App.tsx:64-65 | -1234.50 is written -1234,50 |
| Amount.AmountExampleZero | App.tsx:64-65 | 0 is written 0,00 |
| Amount.AmountExampleLarge | App.tsx:64-65 | -50000 is written -50000,00, with no thousands separator |
| Amount.AmountExampleBalance | App.tsx:64-65 | 150000 is written 150000,00 |
| CsvExport.RowFields | App.tsx:62-69 | the five fields of one row: date, quoted detail, movement, balance, entity tag; Row and RowLines join and map them, and CsvDecode.RowRoundTrip reads a row back |
| CsvExport.Row | App.tsx:68 | its five fields joined with a pipe between each; CsvExport.RowShape writes it out, CsvExport.RowSplitsIntoFields splits it back |
| CsvExport.RowLines | App.tsx:62-69 | one row per transaction in input order; CsvExport.CsvLines and CsvDecode.RowsRoundTrip state that order |
| CsvExport.CsvContent | App.tsx:61-73 | BOM, then header and rows joined by newlines; CsvExport.CsvLines gives its lines and CsvDecode.CsvRoundTrip reads it back |
| CsvExport.IsoDay | App.tsx:77 | `slice(0, 10)` of the timestamp; CsvExport.FileNameShape places it in the file name |
| CsvExport.FileName | App.tsx:77 | the download name; CsvExport.FileNameShape states its layout and CsvExport.FileNameExample a concrete one |
| CsvExport.ExportCsv | App.tsx:55-81 | the export fails exactly when the list is empty, with "No transactions to export."; otherwise it yields the encoded content under the built file name |
| CsvExport.DoubleQuotes | App.tsx:67 | a detail without quotes is left unchanged |
| CsvExport.QuoteDetail | App.tsx:67 | the detail field always starts and ends with a quote |
| CsvExport.DoubleQuotesKeepsChars | App.tsx:67 | doubling the quotes neither adds nor removes any other character |
| CsvExport.DoubleQuotesConcat | App.tsx:67 | quote doubling distributes over concatenation |
| CsvExport.QuoteExample | App.tsx:67 | He said "ok" is written "He said ""ok""" |
| CsvExport.RowShape | App.tsx:68 | a row is date, quoted detail, movement, balance and entity tag, in that order, with a pipe between them |
| CsvExport.RowSplitsIntoFields | App.tsx:62-69 | when neither the date nor the detail holds a pipe, splitting a row on the pipe gives exactly its five fields |
| CsvExport.RowHasNoNewline | App.tsx:62-69 | a row holds a newline only if its date or detail does |
| CsvExport.CsvLines | App.tsx:61-73 | the content starts with the BOM; when no date or detail holds a newline, it is the header line followed by one line per transaction, in input order |
| CsvExport.LinesHaveNoNewline | App.tsx:61-71 | neither the header nor any row holds a newline when no date or detail does |
| CsvExport.ScenarioRow | App.tsx:62-69 | a withdrawal of 50 000 leaving 150 000, tagged GVAL, gives the row 01/01/2024, "ATM W/D", -50000,00, 150000,00, GVAL separated by pipes |
| CsvExport.FileNameShape | App.tsx:77 | the file name is "extracto_", the bank label with whitespace turned to '_', '_', the first ten characters of the timestamp and ".csv" |
| CsvExport.BankPartExample | App.tsx:77 | Banco Popular becomes Banco_Popular in the file name |
| CsvExport.FileNameExample | App.tsx:77 | Banco Popular on 2024-05-01 gives extracto_Banco_Popular_2024-05-01.csv |
| CsvDecode.UnescapeDetail | App.tsx:67 | a quoted detail reads back as the original detail, whatever quotes it holds |
| CsvDecode.QuotedRoundTrip | App.tsx:67 | a quoted detail followed by anything that does not start with a quote reads back as the detail and that remainder |
| CsvDecode.RowRoundTrip | App.tsx:62-69 | a row reads back as its transaction and entity tag when the date holds no pipe |
| CsvDecode.RowsRoundTrip | App.tsx:62-71 | the rows after the header read back as the transactions, in order, each tagged with the entity |
| CsvDecode.CsvRoundTrip | App.tsx:61-73 | the whole content reads back as every transaction in order, each tagged with the selected entity, when no date holds a pipe |
| CsvDecode.ExportRoundTrip | App.tsx:55-81 | a non-empty export succeeds, and its file content reads back as the exported transactions with their tag |
| AppSession.MissingInputMessage | App.tsx:37 | "Please upload a file." in file mode, "Please paste the statement text." in text mode; Session.BeginProcessing sets it |
| AppSession.ExtractionRequest | App.tsx:35-36 | the guard's outcome: nothing exactly when file mode has no file or the trimmed text is empty; a call carries the selected bank, and a document sent is the kept file |
| AppSession.ExtractionRequestSpec | App.tsx:34-39 | the process guard refuses exactly when file mode has no file or the text is all whitespace; otherwise it sends the file, or the trimmed text (then non-empty) |
| AppSession.OutcomeRows | App.tsx:46-47 | the list the extraction leaves: its result in full, or empty when it throws; Session.FinishProcessing stores it |
| AppSession.FailureMessage | App.tsx:48-49 | an Error's own message, otherwise "An unknown error occurred."; Session.FinishProcessing stores it |
| AppSession.ProcessDisabled | App.tsx:83 | loading, or blank text in text mode, or no file in file mode; AppSession.ProcessEnabledIffGuardPasses ties it to the handler's guard |
| AppSession.ExportDisabled | App.tsx:196 | an empty list or loading; AppSession.ExportEnabledProducesFile ties it to the export handler |
| AppSession.ProcessEnabledIffGuardPasses | App.tsx:83 | the process button is enabled exactly when nothing is loading and the handler's guard lets the input through |
| AppSession.ExportEnabledProducesFile | App.tsx:196 | an enabled export button always leads to a file, never to the empty-list error |
| AppSession.Session.Valid | App.tsx:11-18 | the invariant every handler keeps: no list while loading, a kept file is a PDF, only the current tab's input is non-empty |
| AppSession.Session.IsProcessDisabled | App.tsx:83 | AppSession.ProcessDisabled on the session's fields |
| AppSession.Session.IsExportDisabled | App.tsx:196 | AppSession.ExportDisabled on the session's fields; Session.BeginProcessing and Session.FinishProcessing state when it holds |
| AppSession.Session.constructor | App.tsx:11-18 | the initial state is Banco Popular, GVAL, empty text, no file, text mode, no transactions, not loading, no error; it is valid |
| AppSession.Session.SelectBank | App.tsx:107 | only the bank changes |
| AppSession.Session.SelectEntity | App.tsx:118 | only the entity changes |
| AppSession.Session.EditText | App.tsx:147 | only the text changes |
| AppSession.Session.FileChange | App.tsx:20-32 | no file changes nothing; a non-PDF sets "Please upload a PDF file." and drops the kept file; a PDF is kept, and the text and the error are cleared |
| AppSession.Session.RemoveFile | App.tsx:157 | only the kept file is dropped |
| AppSession.Session.SelectTextTab | App.tsx:131 | text mode, no file, no error; the list and the rest are kept |
| AppSession.Session.SelectFileTab | App.tsx:134 | file mode, empty text, no error; the list and the rest are kept |
| AppSession.Session.BeginProcessing | App.tsx:34-46 | it sends exactly what the guard allows, with the selected bank, and a document it sends is a PDF. Nothing to send: only the missing-input message for the current mode is set. Otherwise it starts loading, clears the error and the list, and the export button is then disabled |
| AppSession.Session.StartLoading | App.tsx:41-43 | loading starts, the error and the list are cleared, nothing else changes, and the export button is disabled |
| AppSession.Session.FinishProcessing | App.tsx:45-52 | a result replaces the list in full; a thrown Error stores its message, anything else thrown stores "An unknown error occurred."; loading ends; export is enabled exactly when a non-empty list arrived |
| AppSession.Session.ProcessStatement | App.tsx:34-53 | the whole process handler, sending only a PDF as a document: either only the missing-input error, or the list is the extraction's result (empty on failure), the error is the failure's message (none on success) and loading has ended |
| AppSession.Session.ExportCsvFile | App.tsx:55-81 | an empty list sets "No transactions to export." and gives no file; otherwise it gives the encoded file and changes no state |

## Left out

- Rendering: the JSX layout, the results table, the icons and the error banner are not modelled. The shown error is the `error` field.
- The browser download: the Blob, its MIME type, the object URL and the temporary link element are not modelled. The handler's result is the `Download` value (content and file name) it would hand over.
- The extraction service (`services/geminiService.ts`) is not part of this model. Its answer is a parameter, and the list it returns is stored as given.
- The clock: `new Date().toISOString()` is the `isoNow` parameter.
- Amounts are integer cents, so the model does not capture several behaviours of JavaScript floating-point numbers:
  - `toFixed(2)` rounding of values that are not whole cents;
  - exponential notation at 1e21 and above;
  - the "-0,00" that `toFixed` gives for a negative amount smaller than half a cent.
- The browser `File` object is reduced to its name and MIME type.
- Concurrency: the asynchronous gap of an extraction is modelled by the split into `BeginProcessing` and `FinishProcessing`. Any handler may run between the two halves, and `FinishProcessing` keeps an error set in between when the extraction succeeds, as App.tsx:47 does. `ProcessStatement` is the handler with no event in between. Stale closures of the React hooks (a handler seeing state from an earlier render) are not modelled.
- Session.EditText, Session.FileChange and Session.RemoveFile require the tab in which their control is rendered (the text area in text mode, the file input and remove button in file mode). The invariant `Valid()` relies on this.
- CsvDecode, Text.Split and Text.TakeUntil are the inverse of the encoder, used only in the round-trip lemmas. The application has no CSV reader.

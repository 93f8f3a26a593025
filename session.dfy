/**
 * The statement extractor's session: the selections, the two input
 * sources, the extracted list and the loading/error flags, changed only
 * by the UI handlers. The extraction service is outside the model: its
 * answer reaches the session as an ExtractionOutcome.
 */
module AppSession {
  import opened Wrappers
  import opened Types
  import opened Text
  import opened CsvExport

  datatype InputMode = TextMode | FileMode

  /** What the model keeps of a browser File: its name and its MIME type. */
  datatype FileInfo = FileInfo(name: string, mimeType: string)

  const PDF_TYPE: string := "application/pdf"
  const NOT_PDF_MESSAGE: string := "Please upload a PDF file."
  const UNKNOWN_ERROR_MESSAGE: string := "An unknown error occurred."

  /** What is sent to the extraction service: the trimmed text or the PDF. */
  datatype ExtractionInput = TextInput(text: string) | DocumentInput(file: FileInfo)

  /** One call of the extraction service: the input and the selected bank as a hint. */
  datatype ExtractionCall = ExtractionCall(input: ExtractionInput, bank: Bank)

  /**
   * How the awaited extraction call ends: a list, an Error with its
   * message, or something thrown that is not an Error.
   */
  datatype ExtractionOutcome = Extracted(rows: seq<Transaction>) | Thrown(message: string) | ThrownNonError

  function MissingInputMessage(mode: InputMode): string
  {
    if mode == FileMode then "Please upload a file." else "Please paste the statement text."
  }

  /**
   * The process guard: the input the handler would send, or None when
   * the current mode has nothing to send (no file, or text that is blank
   * once trimmed).
   */
  function ExtractionRequest(mode: InputMode, text: string, file: Option<FileInfo>, bank: Bank): (r: Option<ExtractionCall>)
    ensures r.None? <==> (mode == FileMode && file.None?) || (mode == TextMode && Trim(text) == [])
    ensures r.Some? ==> r.value.bank == bank
    ensures r.Some? && r.value.input.DocumentInput? ==> mode == FileMode && file == Some(r.value.input.file)
  {
    if mode == FileMode then
      if file.Some? then Some(ExtractionCall(DocumentInput(file.value), bank)) else None
    else
      assert mode == TextMode;
      if Trim(text) == [] then None else Some(ExtractionCall(TextInput(Trim(text)), bank))
  }

  /**
   * The guard refuses exactly when file mode has no file or the text is
   * all whitespace; otherwise it sends the file, or the text trimmed,
   * which is then non-empty.
   */
  lemma ExtractionRequestSpec(mode: InputMode, text: string, file: Option<FileInfo>, bank: Bank)
    ensures var r := ExtractionRequest(mode, text, file, bank);
      && (r.None? <==> (mode == FileMode && file.None?)
                       || (mode == TextMode && forall i :: 0 <= i < |text| ==> IsWhitespace(text[i])))
      && (r.Some? ==> r.value.bank == bank)
      && (r.Some? && mode == FileMode ==> r.value.input == DocumentInput(file.value))
      && (r.Some? && mode == TextMode ==> r.value.input == TextInput(Trim(text)) && Trim(text) != [])
  {
    if mode == TextMode && Trim(text) == [] {
      assert forall i :: 0 <= i < |text| ==> IsWhitespace(text[i]);
    }
  }

  /** The list left after an extraction: the result in full, or nothing. */
  function OutcomeRows(outcome: ExtractionOutcome): seq<Transaction>
  {
    if outcome.Extracted? then outcome.rows else []
  }

  /** The catch branch: an Error's own message, otherwise a fixed one. */
  function FailureMessage(outcome: ExtractionOutcome): string
    requires !outcome.Extracted?
  {
    if outcome.Thrown? then outcome.message else UNKNOWN_ERROR_MESSAGE
  }

  /** The disabled state of the process button. */
  predicate ProcessDisabled(loading: bool, mode: InputMode, text: string, file: Option<FileInfo>)
  {
    loading || (mode == TextMode && Trim(text) == []) || (mode == FileMode && file.None?)
  }

  /** The disabled state of the export button. */
  predicate ExportDisabled(transactions: seq<Transaction>, loading: bool)
  {
    |transactions| == 0 || loading
  }

  /**
   * The process button is enabled exactly when nothing is loading and the
   * guard would let the handler through.
   */
  lemma ProcessEnabledIffGuardPasses(loading: bool, mode: InputMode, text: string, file: Option<FileInfo>, bank: Bank)
    ensures !ProcessDisabled(loading, mode, text, file) <==> !loading && ExtractionRequest(mode, text, file, bank).Some?
  {
    ExtractionRequestSpec(mode, text, file, bank);
  }

  /** An enabled export button always leads to a file, never to the empty-list error. */
  lemma ExportEnabledProducesFile(transactions: seq<Transaction>, loading: bool, e: EntityOption, bank: Bank, isoNow: string)
    ensures !ExportDisabled(transactions, loading) ==> ExportCsv(transactions, e, bank, isoNow).Success?
    ensures ExportCsv(transactions, e, bank, isoNow).Failure? ==> ExportDisabled(transactions, loading)
  {
  }

  /** A snapshot of all session fields. */
  datatype SessionState = SessionState(
    bank: Bank,
    entity: EntityOption,
    statementText: string,
    statementFile: Option<FileInfo>,
    inputMode: InputMode,
    transactions: seq<Transaction>,
    isLoading: bool,
    error: Option<string>)

  class Session {
    var bank: Bank
    var entity: EntityOption
    var statementText: string
    var statementFile: Option<FileInfo>
    var inputMode: InputMode
    var transactions: seq<Transaction>
    var isLoading: bool
    var error: Option<string>

    function State(): SessionState
      reads this
    {
      SessionState(bank, entity, statementText, statementFile, inputMode, transactions, isLoading, error)
    }

    /**
     * What every handler keeps: nothing is listed while an extraction is
     * in flight, a kept file is a PDF, and only the current mode's input
     * source can be non-empty.
     */
    ghost predicate Valid()
      reads this
    {
      && (isLoading ==> transactions == [])
      && (statementFile.Some? ==> statementFile.value.mimeType == PDF_TYPE)
      && (inputMode == TextMode ==> statementFile.None?)
      && (inputMode == FileMode ==> statementText == [])
    }

    predicate IsProcessDisabled()
      reads this
    {
      ProcessDisabled(isLoading, inputMode, statementText, statementFile)
    }

    predicate IsExportDisabled()
      reads this
    {
      ExportDisabled(transactions, isLoading)
    }

    constructor ()
      ensures Valid()
      ensures State() == SessionState(Popular, GVAL, "", None, TextMode, [], false, None)
    {
      bank := Popular;
      entity := GVAL;
      statementText := "";
      statementFile := None;
      inputMode := TextMode;
      transactions := [];
      isLoading := false;
      error := None;
    }

    method SelectBank(b: Bank)
      requires Valid()
      modifies this
      ensures Valid()
      ensures State() == old(State()).(bank := b)
    {
      bank := b;
    }

    method SelectEntity(e: EntityOption)
      requires Valid()
      modifies this
      ensures Valid()
      ensures State() == old(State()).(entity := e)
    {
      entity := e;
    }

    /** Typing in the text area, which is shown only in text mode. */
    method EditText(text: string)
      requires Valid() && inputMode == TextMode
      modifies this
      ensures Valid()
      ensures State() == old(State()).(statementText := text)
    {
      statementText := text;
    }

    /**
     * The file input, shown only in file mode: no file changes nothing; a
     * non-PDF is refused with an error and drops any kept file; a PDF is
     * kept, the text is cleared and so is the error.
     */
    method FileChange(file: Option<FileInfo>)
      requires Valid() && inputMode == FileMode
      modifies this
      ensures Valid()
      ensures file.None? ==> State() == old(State())
      ensures file.Some? && file.value.mimeType != PDF_TYPE ==>
        State() == old(State()).(error := Some(NOT_PDF_MESSAGE), statementFile := None)
      ensures file.Some? && file.value.mimeType == PDF_TYPE ==>
        State() == old(State()).(statementFile := file, statementText := "", error := None)
    {
      if file.Some? {
        if file.value.mimeType != PDF_TYPE {
          error := Some(NOT_PDF_MESSAGE);
          statementFile := None;
          return;
        }
        statementFile := file;
        statementText := "";
        error := None;
      }
    }

    /** The remove button beside a kept file. */
    method RemoveFile()
      requires Valid() && inputMode == FileMode
      modifies this
      ensures Valid()
      ensures State() == old(State()).(statementFile := None)
    {
      statementFile := None;
    }

    /** The "paste text" tab: drops the file and the error; the list stays. */
    method SelectTextTab()
      requires Valid()
      modifies this
      ensures Valid()
      ensures State() == old(State()).(inputMode := TextMode, statementFile := None, error := None)
    {
      inputMode := TextMode;
      statementFile := None;
      error := None;
    }

    /** The "upload PDF" tab: clears the text and the error; the list stays. */
    method SelectFileTab()
      requires Valid()
      modifies this
      ensures Valid()
      ensures State() == old(State()).(inputMode := FileMode, statementText := "", error := None)
    {
      inputMode := FileMode;
      statementText := "";
      error := None;
    }

    /**
     * The process handler up to the await: with nothing to send it only
     * sets the missing-input error; otherwise it starts loading, clears the
     * error and empties the list, and returns what it sends.
     */
    method BeginProcessing() returns (call: Option<ExtractionCall>)
      requires Valid()
      modifies this
      ensures Valid()
      ensures call == ExtractionRequest(old(inputMode), old(statementText), old(statementFile), old(bank))
      ensures call.Some? && call.value.input.DocumentInput? ==> call.value.input.file.mimeType == PDF_TYPE
      ensures call.None? ==> State() == old(State()).(error := Some(MissingInputMessage(old(inputMode))))
      ensures call.Some? ==> State() == old(State()).(isLoading := true, error := None, transactions := [])
      ensures call.Some? ==> IsExportDisabled()
    {
      call := ExtractionRequest(inputMode, statementText, statementFile, bank);
      if call.None? {
        error := Some(MissingInputMessage(inputMode));
      } else {
        StartLoading();
      }
    }

    /** The three updates made once the guard has let the input through. */
    method StartLoading()
      requires Valid()
      modifies this
      ensures Valid()
      ensures State() == old(State()).(isLoading := true, error := None, transactions := [])
      ensures IsExportDisabled()
    {
      isLoading := true;
      error := None;
      transactions := [];
    }

    /**
     * The process handler after the await: a result replaces the list in
     * full; a failure stores its message and leaves the list empty; either
     * way loading ends.
     */
    method FinishProcessing(outcome: ExtractionOutcome)
      requires Valid() && isLoading
      modifies this
      ensures Valid()
      ensures State() == old(State()).(
        transactions := OutcomeRows(outcome),
        error := if outcome.Extracted? then old(error) else Some(FailureMessage(outcome)),
        isLoading := false)
      ensures IsExportDisabled() <==> OutcomeRows(outcome) == []
    {
      if outcome.Extracted? {
        transactions := outcome.rows;
      } else {
        error := Some(FailureMessage(outcome));
      }
      isLoading := false;
    }

    /**
     * The whole process handler with no other event during the await:
     * either only the missing-input error, or the list is the extraction's
     * result (empty on failure) and the error is the failure's message.
     */
    method ProcessStatement(outcome: ExtractionOutcome) returns (call: Option<ExtractionCall>)
      requires Valid()
      modifies this
      ensures Valid()
      ensures call == ExtractionRequest(old(inputMode), old(statementText), old(statementFile), old(bank))
      ensures call.Some? && call.value.input.DocumentInput? ==> call.value.input.file.mimeType == PDF_TYPE
      ensures call.None? ==> State() == old(State()).(error := Some(MissingInputMessage(old(inputMode))))
      ensures call.Some? ==> State() == old(State()).(
        transactions := OutcomeRows(outcome),
        error := if outcome.Extracted? then None else Some(FailureMessage(outcome)),
        isLoading := false)
    {
      call := BeginProcessing();
      if call.Some? {
        FinishProcessing(outcome);
      }
    }

    /**
     * The export handler: on an empty list it sets the error and yields no
     * file; otherwise it yields the file and changes nothing.
     */
    method ExportCsvFile(isoNow: string) returns (download: Option<Download>)
      requires Valid()
      modifies this
      ensures Valid()
      ensures old(transactions) == [] ==>
        download.None? && State() == old(State()).(error := Some(EMPTY_EXPORT_MESSAGE))
      ensures old(transactions) != [] ==>
        download == Some(Download(CsvContent(transactions, entity), FileName(bank, isoNow))) && State() == old(State())
    {
      var r := ExportCsv(transactions, entity, bank, isoNow);
      if r.Failure? {
        error := Some(r.error);
        download := None;
      } else {
        download := Some(r.value);
      }
    }
  }
}

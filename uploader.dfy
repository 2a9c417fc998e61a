/**
 * The `MalwareAnalyzer` class of frontend/script.js: validation of the chosen file, the single
 * upload to `/api/analyze` raced against a 30-second deadline, the folding of every failure
 * into one error message, and the `abortController` slot.
 */
module Uploader {
  import opened Common
  import opened Text
  import HtmlEscape

  /** `maxFileSize`: 35 MiB. */
  const MaxFileSize: nat := 35 * 1024 * 1024

  /** `supportedTypes` */
  const SupportedTypes: seq<string> := [".py", ".pyc", ".pyz", ".exe"]

  const TimeoutMessage: string := "Server took too long to respond"
  const ConnectionMessage: string := "\U{1F310} Connection failed - check your network"
  const SuccessNotice: string := "Analysis complete!"
  /** The marker of a failed `fetch` in its error message. */
  const FetchFailedMarker: string := "Failed to fetch"
  const ServerErrorText: string := "Server error ("
  const TooLargeText: string := "\U{1F6A8} FILE TOO LARGE ("
  const OurLimitText: string := "MB)\n\U{2022} Our limit: "
  const VercelLimitText: string := "MB\n\U{2022} Vercel's max: 50MB\n\U{2022} Try smaller files!"
  const UnsupportedText: string := "Unsupported file type. We accept: "

  /** A parsed JSON body: its `message` field and its `JSON.stringify(body, null, 2)` text. */
  datatype JsonBody = JsonBody(message: Option<string>, pretty: string)

  /** A settled `fetch`: `ok`, `status`, and what `response.json()` yields or the parse error's message. */
  datatype Response = Response(ok: bool, status: nat, body: Result<JsonBody, string>)

  /** How the race between the upload and the deadline settled. */
  datatype Settlement =
    | Responded(response: Response)    // the fetch produced a response first
    | FetchRejected(message: string)   // the fetch itself failed (e.g. "Failed to fetch")
    | DeadlineElapsed                  // the 30-second timer fired first

  /** Why `processFile` refused a file before uploading it. */
  datatype Rejection = TooLarge | UnsupportedType

  /**
   * What `#results` shows: an error box with the escaped message, or the escaped JSON
   * followed by the success notice (`showSuccess` escapes `SuccessNotice`, which it leaves
   * unchanged: see `SuccessNoticeEscaped`).
   */
  datatype Panel = Blank | ErrorPanel(message: string) | ResultsPanel(json: string)

  /** `some(ext => name.endsWith(ext))` over a list of extensions. */
  function SomeEndsWith(name: string, exts: seq<string>): (r: bool)
    ensures r <==> exists k | 0 <= k < |exts| :: EndsWith(name, exts[k])
  {
    if |exts| == 0 then false else EndsWith(name, exts[0]) || SomeEndsWith(name, exts[1..])
  }

  /** `isValidFile(file)` */
  function IsValidFile(file: FileInfo): bool
  {
    SomeEndsWith(Lower(file.name), SupportedTypes)
  }

  /** A file is valid exactly when its lower-cased name ends with `.py`, `.pyc`, `.pyz` or `.exe`. */
  lemma IsValidFileIff(file: FileInfo)
    ensures IsValidFile(file) <==>
      (EndsWith(Lower(file.name), ".py") || EndsWith(Lower(file.name), ".pyc")
       || EndsWith(Lower(file.name), ".pyz") || EndsWith(Lower(file.name), ".exe"))
  {
    var n := Lower(file.name);
    if IsValidFile(file) {
      var k :| 0 <= k < |SupportedTypes| && EndsWith(n, SupportedTypes[k]);
    } else {
      assert !EndsWith(n, SupportedTypes[0]) && !EndsWith(n, SupportedTypes[1]);
      assert !EndsWith(n, SupportedTypes[2]) && !EndsWith(n, SupportedTypes[3]);
    }
  }

  /** The checks `processFile` makes before uploading, the size check first. */
  function CheckFile(file: FileInfo): (r: Option<Rejection>)
    ensures r == Some(TooLarge) <==> file.size > MaxFileSize
    ensures r == Some(UnsupportedType) <==> file.size <= MaxFileSize && !IsValidFile(file)
    ensures r == None <==> file.size <= MaxFileSize && IsValidFile(file)
  {
    if file.size > MaxFileSize then Some(TooLarge)
    else if !IsValidFile(file) then Some(UnsupportedType)
    else None
  }

  /** The message thrown for a rejection; `sizeText` is `(file.size/1024/1024).toFixed(1)`. */
  function RejectionMessage(rejection: Rejection, sizeText: string): string
  {
    match rejection
    case TooLarge =>
      TooLargeText + sizeText + OurLimitText + NatToString(MaxFileSize / 1024 / 1024) + VercelLimitText
    case UnsupportedType =>
      UnsupportedText + Join(SupportedTypes, ", ")
  }

  /** `uploadFile` once its fetch has responded: the parsed body, or the message it throws. */
  function UploadResult(response: Response): (r: Result<JsonBody, string>)
    ensures response.ok ==> r == response.body
    ensures !response.ok && response.body.Ok? && response.body.value.message.Some?
            && response.body.value.message.value != ""
            ==> r == Err(response.body.value.message.value)
    ensures !response.ok && !(response.body.Ok? && response.body.value.message.Some?
            && response.body.value.message.value != "")
            ==> r == Err(ServerErrorText + NatToString(response.status) + ")")
  {
    if !response.ok then
      match response.body
      case Ok(JsonBody(Some(m), _)) =>
        if m != "" then Err(m) else Err(ServerErrorText + NatToString(response.status) + ")")
      case _ => Err(ServerErrorText + NatToString(response.status) + ")")
    else
      response.body
  }

  /** `Promise.race([uploadFile(file), deadline])` */
  function RaceResult(settled: Settlement): Result<JsonBody, string>
  {
    match settled
    case Responded(response) => UploadResult(response)
    case FetchRejected(message) => Err(message)
    case DeadlineElapsed => Err(TimeoutMessage)
  }

  /** The whole `try` block of `processFile`: the results document, or the message of the error caught. */
  function ProcessOutcome(file: FileInfo, sizeText: string, settled: Settlement): Result<JsonBody, string>
  {
    match CheckFile(file)
    case Some(rejection) => Err(RejectionMessage(rejection, sizeText))
    case None => RaceResult(settled)
  }

  /** The `catch` block's choice of the text handed to `showError`. */
  function DisplayedError(message: string): (r: string)
    ensures Contains(message, FetchFailedMarker) ==> r == ConnectionMessage
    ensures !Contains(message, FetchFailedMarker) ==> r == message
  {
    if Contains(message, FetchFailedMarker) then ConnectionMessage else message
  }

  /** What `#results` holds once `processFile` has finished. */
  function PanelFor(outcome: Result<JsonBody, string>): Panel
  {
    match outcome
    case Ok(body) => ResultsPanel(HtmlEscape.EscapeHtml(Some(body.pretty)))
    case Err(message) => ErrorPanel(HtmlEscape.EscapeHtml(Some(DisplayedError(message))))
  }

  /** A file strictly larger than 35 MiB is rejected as too large; one of exactly 35 MiB passes the size check. */
  lemma SizeLimitBoundary(name: string, sizeText: string, settled: Settlement)
    ensures ProcessOutcome(FileInfo(name, MaxFileSize + 1), sizeText, settled)
            == Err(RejectionMessage(TooLarge, sizeText))
    ensures CheckFile(FileInfo(name, MaxFileSize)) != Some(TooLarge)
  {
  }

  /** The size check masks the type check, and a rejected file never reaches the race. */
  lemma RejectionPrecedence(file: FileInfo, sizeText: string, s1: Settlement, s2: Settlement)
    requires CheckFile(file).Some?
    ensures ProcessOutcome(file, sizeText, s1) == ProcessOutcome(file, sizeText, s2)
    ensures file.size > MaxFileSize ==> ProcessOutcome(file, sizeText, s1) == Err(RejectionMessage(TooLarge, sizeText))
  {
  }

  /** A non-OK response fails with the body's `message` if it has a non-empty one, else with the status. */
  lemma NonOkMessage(status: nat, body: Result<JsonBody, string>)
    ensures UploadResult(Response(false, status, body)).Err?
    ensures body.Ok? && body.value.message.Some? && body.value.message.value != ""
            ==> UploadResult(Response(false, status, body)).error == body.value.message.value
    ensures body.Err? ==> UploadResult(Response(false, status, body)).error
                          == ServerErrorText + NatToString(status) + ")"
  {
  }

  /** A fetch failure whose message contains `Failed to fetch` is shown as the connection message. */
  lemma FetchFailureShownAsConnection(file: FileInfo, sizeText: string, message: string)
    requires CheckFile(file).None?
    requires Contains(message, FetchFailedMarker)
    ensures PanelFor(ProcessOutcome(file, sizeText, FetchRejected(message)))
            == ErrorPanel(HtmlEscape.EscapeHtml(Some(ConnectionMessage)))
  {
    assert ProcessOutcome(file, sizeText, FetchRejected(message)) == Err(message);
    assert DisplayedError(message) == ConnectionMessage;
  }

  /** The success notice contains nothing to escape. */
  lemma SuccessNoticeEscaped()
    ensures HtmlEscape.EscapeHtml(Some(SuccessNotice)) == SuccessNotice
  {
    HtmlEscape.EscapePlainText(SuccessNotice);
  }

  /** Every error shown is escaped, so the error box never carries raw markup. */
  lemma ErrorPanelSafe(outcome: Result<JsonBody, string>)
    ensures PanelFor(outcome).ErrorPanel? ==> HtmlEscape.MarkupSafe(PanelFor(outcome).message)
    ensures PanelFor(outcome).ResultsPanel? ==> HtmlEscape.MarkupSafe(PanelFor(outcome).json)
  {
    match outcome
    case Ok(body) => HtmlEscape.EscapeHtmlSafe(Some(body.pretty));
    case Err(message) => HtmlEscape.EscapeHtmlSafe(Some(DisplayedError(message)));
  }

  class MalwareAnalyzer {
    /** True while an `AbortController` occupies the `abortController` slot. */
    var abortController: bool
    /** Whether the progress container is displayed. */
    var progressShown: bool
    /** The content of `#results`. */
    var results: Panel
    /** The files sent to `/api/analyze`, in order: one POST per upload. */
    var requests: seq<FileInfo>

    constructor ()
      ensures !abortController && !progressShown && results == Blank && requests == []
    {
      abortController := false;
      progressShown := false;
      results := Blank;
      requests := [];
    }

    /** `processFile(file)` */
    method ProcessFile(file: FileInfo, sizeText: string, settled: Settlement)
      modifies this
      ensures !abortController && !progressShown
      ensures requests == old(requests) + (if CheckFile(file).None? then [file] else [])
      ensures results == PanelFor(ProcessOutcome(file, sizeText, settled))
    {
      var outcome: Result<JsonBody, string>;
      var rejection := CheckFile(file);
      if rejection.Some? {
        outcome := Err(RejectionMessage(rejection.value, sizeText));
      } else {
        progressShown := true;
        abortController := true;
        requests := requests + [file];
        outcome := RaceResult(settled);
      }
      assert outcome == ProcessOutcome(file, sizeText, settled);
      ShowOutcome(outcome);
      progressShown := false;
      abortController := false;
    }

    /** The end of the `try` block (results, then the success notice) or the `catch` block. */
    method ShowOutcome(outcome: Result<JsonBody, string>)
      modifies this`results
      ensures results == PanelFor(outcome)
    {
      match outcome {
        case Ok(body) =>
          DisplayResults(body);
        case Err(message) =>
          ShowError(DisplayedError(message));
      }
    }

    /** `displayResults(results)`; the success notice it is followed by is `SuccessNotice`. */
    method DisplayResults(body: JsonBody)
      modifies this`results
      ensures results == ResultsPanel(HtmlEscape.EscapeHtml(Some(body.pretty)))
    {
      results := ResultsPanel(HtmlEscape.EscapeHtml(Some(body.pretty)));
    }

    /** `showError(message)`: replaces the results with the escaped message. */
    method ShowError(message: string)
      modifies this`results
      ensures results == ErrorPanel(HtmlEscape.EscapeHtml(Some(message)))
    {
      results := ErrorPanel(HtmlEscape.EscapeHtml(Some(message)));
    }
  }
}

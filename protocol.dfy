/** The pure parts of the server's request handling: the status enumeration and its
    order, the error codes, request parameter validation, the response record and the
    table the error handler applies. */
module Protocol {
  import opened Wrappers
  import opened Exceptions
  import CaptureStills

  /** The server status. The source compares statuses by their numeric values
      (INITIALIZATION_ERROR = -1, INITIALIZING = 0, IDLE = 1, PROCESSING = 2). */
  datatype ServerStatus = InitError | Initializing | Idle | Processing

  function Rank(s: ServerStatus): (n: int)
    ensures -1 <= n <= 2
  {
    match s
    case InitError => -1
    case Initializing => 0
    case Idle => 1
    case Processing => 2
  }

  /** The statuses have the values -1, 0, 1 and 2 and so are ordered INITIALIZATION_ERROR
      < INITIALIZING < IDLE < PROCESSING, the order the handlers compare them by. */
  lemma RankOrder()
    ensures Rank(InitError) == -1 && Rank(Initializing) == 0 && Rank(Idle) == 1 && Rank(Processing) == 2
    ensures Rank(InitError) < Rank(Initializing) < Rank(Idle) < Rank(Processing)
    ensures forall s :: Rank(s) > Rank(Initializing) <==> s == Idle || s == Processing
    ensures forall s :: Rank(s) < Rank(Idle) <==> s == InitError || s == Initializing
    ensures forall s :: Rank(s) > Rank(Idle) <==> s == Processing
  {
  }

  /** The numeric order is a faithful encoding: distinct statuses have distinct values. */
  lemma RankInjective(a: ServerStatus, b: ServerStatus)
    ensures Rank(a) == Rank(b) <==> a == b
  {
  }

  // Error codes reported in the body of an NG response.
  const WarnInitializing := 900
  const ErrorInitialization := 901
  const WarnProcessing := 910
  const ErrorInvalidParams := 911
  const ErrorCapture := 912
  const ErrorInvalidRequest := 990
  const ErrorUnknown := 999

  // ---------------------------------------------------------------------------
  // Request parameter validation

  /** The checks of a CREATE_SNAPSHOT request's parameters, in order: the directory is
      set and is a directory, the prefix is set, the format is set and supported.
      `isDirectory` is the file system's answer. None means the call returns normally;
      Some(e) is the InvalidParams exception it throws, for the first check that fails. */
  function ValidateRequestParams(captureDirectory: string, filenamePrefix: string, imageFormat: string,
                                 isDirectory: string -> bool): (r: Option<Exception>)
    ensures r.None? <==>
      captureDirectory != "" && isDirectory(captureDirectory) && filenamePrefix != ""
      && imageFormat in CaptureStills.SupportedImageFormats
    ensures r.Some? ==> r.value.kind == InvalidParams
    // the directory is checked first, whatever the other parameters are
    ensures captureDirectory == "" ==> r == Some(Raise(InvalidParams, "You must set a capture directory"))
    ensures captureDirectory != "" && !isDirectory(captureDirectory) ==>
      r == Some(Raise(InvalidParams, "Invalid directory specified"))
    // then the prefix, whatever the format is
    ensures captureDirectory != "" && isDirectory(captureDirectory) && filenamePrefix == "" ==>
      r == Some(Raise(InvalidParams, "You must set a filename prefix"))
    // and the format last
    ensures captureDirectory != "" && isDirectory(captureDirectory) && filenamePrefix != ""
            && imageFormat !in CaptureStills.SupportedImageFormats ==>
      r == Some(Raise(InvalidParams,
                 if imageFormat == "" then "You must set an image format"
                 else "Invalid image format specified '" + imageFormat + "'"))
  {
    if captureDirectory == "" then Some(Raise(InvalidParams, "You must set a capture directory"))
    else if !isDirectory(captureDirectory) then Some(Raise(InvalidParams, "Invalid directory specified"))
    else if filenamePrefix == "" then Some(Raise(InvalidParams, "You must set a filename prefix"))
    else if imageFormat == "" then Some(Raise(InvalidParams, "You must set an image format"))
    else if CaptureStills.Find(CaptureStills.SupportedImageFormats, imageFormat) == -1 then
      Some(Raise(InvalidParams, "Invalid image format specified '" + imageFormat + "'"))
    else None
  }

  // ---------------------------------------------------------------------------
  // Responses

  const ResultOk := "OK"
  const ResultNg := "NG"

  /** A JSON value as far as the response body uses one. */
  datatype Json = JString(s: string) | JInt(i: int)

  /** The response envelope: the "response" member and the members of "body". */
  datatype Response = Response(response: string, body: map<string, Json>)

  /** The response document for `result`: an OK result carries the file path when there
      is one, any other result carries exactly the error code and message. */
  function MakeResponse(result: string, filepath: string, errCode: int, errMsg: string): (r: Response)
    ensures r.response == result
    ensures result == ResultOk ==> r.body.Keys == if filepath == "" then {} else {"filepath"}
    ensures result == ResultOk && filepath != "" ==> r.body["filepath"] == JString(filepath)
    ensures result != ResultOk ==> r.body.Keys == {"code", "message"}
    ensures result != ResultOk ==> r.body["code"] == JInt(errCode) && r.body["message"] == JString(errMsg)
  {
    var body :=
      if result == ResultOk then
        if filepath != "" then map["filepath" := JString(filepath)] else map[]
      else map["code" := JInt(errCode), "message" := JString(errMsg)];
    Response(result, body)
  }

  /** What a client reads from a response: success with an optional file path, or an
      error code and message. */
  datatype ClientView = Succeeded(filepath: Option<string>) | Rejected(code: int, message: string) | Unreadable

  function ReadResponse(r: Response): ClientView {
    if r.response == ResultOk then
      if "filepath" in r.body && r.body["filepath"].JString? then Succeeded(Some(r.body["filepath"].s))
      else Succeeded(None)
    else if "code" in r.body && r.body["code"].JInt? && "message" in r.body && r.body["message"].JString? then
      Rejected(r.body["code"].i, r.body["message"].s)
    else Unreadable
  }

  /** A client recovers from the response exactly what the server put in it. */
  lemma ReadMakeResponse(filepath: string, errCode: int, errMsg: string)
    ensures ReadResponse(MakeResponse(ResultOk, filepath, 0, "")) ==
      Succeeded(if filepath == "" then None else Some(filepath))
    ensures ReadResponse(MakeResponse(ResultNg, "", errCode, errMsg)) == Rejected(errCode, errMsg)
  {
  }

  // ---------------------------------------------------------------------------
  // The error handler's table

  /** What the error handler does: the HTTP status, the error code and message of the NG
      response, and the server status it leaves behind. */
  datatype ErrorReply = ErrorReply(httpStatus: int, code: int, message: string, next: ServerStatus)

  /** The error handler, given the exception's type name (empty when the error did not
      come from an exception, such as an unknown URL), its what() text and the current
      status. */
  function ErrorTable(errType: string, errWhat: string, status: ServerStatus): ErrorReply
  {
    if errType == TypeName(InitializationError) then
      if status == Initializing then ErrorReply(200, WarnInitializing, errWhat, status)
      else ErrorReply(500, ErrorInitialization, "InitializationError: " + errWhat, status)
    else if errType == TypeName(InvalidParams) then
      ErrorReply(400, ErrorInvalidParams, "InvalidParams: " + errWhat, Idle)
    else if errType == TypeName(CaptureError) then
      if status == Processing then ErrorReply(200, WarnProcessing, errWhat, status)
      else ErrorReply(500, ErrorCapture, "CaptureError: " + errWhat, Idle)
    else if errType == TypeName(InvalidRequest) || errType == "" then
      ErrorReply(400, ErrorInvalidRequest, "InvalidRequest: " + (if errType == "" then "URL error" else errWhat), Idle)
    else
      ErrorReply(500, ErrorUnknown, "Unknown error", Idle)
  }

  /** The table at a glance: the code's range names the class of the error, only the
      two warnings are sent with HTTP 200, and the status is kept only for
      initialization errors and for capture errors while processing. */
  lemma ErrorTableClasses(errType: string, errWhat: string, status: ServerStatus)
    ensures var r := ErrorTable(errType, errWhat, status);
      (900 <= r.code <= 901 <==> errType == TypeName(InitializationError))
      && (910 <= r.code <= 912 <==> errType == TypeName(InvalidParams) || errType == TypeName(CaptureError))
      && (r.code == ErrorInvalidRequest <==> errType == TypeName(InvalidRequest) || errType == "")
      && (r.code == ErrorUnknown <==> KindOf(errType).None? && errType != "")
      && (r.httpStatus == 200 <==> r.code == WarnInitializing || r.code == WarnProcessing)
      && (r.next == status || r.next == Idle)
      && (r.next == status <==>
            errType == TypeName(InitializationError)
            || (errType == TypeName(CaptureError) && status == Processing)
            || status == Idle)
  {
  }

  /** An initialization error is a warning with the bare message while the server is
      still initializing, and an error with the "InitializationError: " prefix otherwise;
      either way the status is unchanged. */
  lemma InitializationErrorReply(what: string, status: ServerStatus)
    ensures var r := ErrorTable(TypeName(InitializationError), what, status);
      r.next == status
      && (status == Initializing ==> r.code == WarnInitializing && r.message == what)
      && (status != Initializing ==> r.code == ErrorInitialization && r.message == "InitializationError: " + what)
  {
  }

  /** A capture error while processing is the "busy" warning and keeps PROCESSING;
      otherwise it is a capture failure with the "CaptureError: " prefix and IDLE. */
  lemma CaptureErrorReply(what: string, status: ServerStatus)
    ensures var r := ErrorTable(TypeName(CaptureError), what, status);
      (status == Processing ==> r == ErrorReply(200, WarnProcessing, what, Processing))
      && (status != Processing ==> r == ErrorReply(500, ErrorCapture, "CaptureError: " + what, Idle))
  {
  }

  /** Invalid parameters end in IDLE with code 911. */
  lemma InvalidParamsReply(what: string, status: ServerStatus)
    ensures ErrorTable(TypeName(InvalidParams), what, status) ==
      ErrorReply(400, ErrorInvalidParams, "InvalidParams: " + what, Idle)
  {
  }

  /** A malformed request ends in IDLE with code 990. */
  lemma InvalidRequestReply(what: string, status: ServerStatus)
    ensures ErrorTable(TypeName(InvalidRequest), what, status) ==
      ErrorReply(400, ErrorInvalidRequest, "InvalidRequest: " + what, Idle)
  {
  }

  /** Invalid requests, errors without an exception and unknown exception types set the
      status to IDLE from every status, INITIALIZATION_ERROR included: the error state is
      not sticky. */
  lemma RequestErrorsResetToIdle(errType: string, what: string, status: ServerStatus)
    requires KindOf(errType).None? || errType == TypeName(InvalidRequest)
    ensures ErrorTable(errType, what, status).next == Idle
    ensures errType == TypeName(InvalidRequest) ==>
      ErrorTable(errType, what, status).message == "InvalidRequest: " + what
    ensures errType == "" ==> ErrorTable(errType, what, status).message == "InvalidRequest: URL error"
    ensures errType != "" && KindOf(errType).None? ==>
      ErrorTable(errType, what, status) == ErrorReply(500, ErrorUnknown, "Unknown error", Idle)
  {
  }

  /** Once the server is past initialization the handler never yields INITIALIZING, so
      the WARN_INITIALIZING code is never produced. */
  lemma ErrorTableAfterStartup(errType: string, what: string, status: ServerStatus)
    requires status != Initializing
    ensures ErrorTable(errType, what, status).next != Initializing
    ensures ErrorTable(errType, what, status).code != WarnInitializing
  {
  }
}

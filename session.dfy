/** The running server: the state main() shares with its request handlers, the POST
    handler's three commands, the error handler that turns every exception into an NG
    response, and the start-up that sets the state up.

    A CREATE_SNAPSHOT request is split into two events: its admission (status check,
    PROCESSING, parameter validation, starting the capture) and its completion (the
    capture worker's result, stopping the capture, IDLE). Other requests may arrive
    between the two, as they may on the HTTP server's worker threads. */
module Session {
  import opened Wrappers
  import opened Exceptions
  import opened Protocol
  import CaptureStills
  import ImageWriter
  import Startup

  // ---------------------------------------------------------------------------
  // Requests

  /** A JSON member as the handler reads it: missing, a string, another scalar (a number,
      a boolean or null, with the text the JSON library renders it as), or an object or
      array. */
  datatype Field = Absent | Str(s: string) | Scalar(text: string) | Composite

  /** The "data" member: missing or null, a value that is not an object, or an object
      with the three members. */
  datatype Data = NoData | DataNotObject | Members(outputDirectory: Field, filenamePrefix: Field, imageFormat: Field)

  /** A POST body: not JSON, JSON that is neither an object nor null, or an object (a
      null document reads as an empty object). */
  datatype Body = Unparsable | BodyNotObject | Object(command: Field, data: Data)

  /** A request for an unknown URL, or a POST to the root. */
  datatype Request = UrlError | Post(body: Body)

  /** A thrown exception as the error handler sees it: its type name and what(). */
  datatype Raised = Raised(typeName: string, what: string)

  function Throw(k: ErrorKind, msg: string): (e: Raised)
    ensures KindOf(e.typeName) == Some(k) && e.what == msg
  {
    KindOfTypeName(k);
    Raised(TypeName(k), msg)
  }

  /** The JSON library's exception for a value read as the wrong type. */
  const JsonLogicError := Raised("class Json::LogicError", "")

  /** The message of the capture error thrown when StartCapture fails. */
  const StartCaptureFailed := "failed to start capture"

  /** The message of the request error thrown for a body that is not JSON. */
  const ParseFailed := "failed to parse JSON body"

  /** The command as read with asString: a missing member reads as "", any scalar as its
      text; an object or array throws. */
  function AsString(f: Field): Option<string> {
    match f
    case Absent => Some("")
    case Str(s) => Some(s)
    case Scalar(text) => Some(text)
    case Composite => None
  }

  /** A parameter as read with a default of "" and asCString: a missing member reads as
      the default, a string as itself; anything else throws. */
  function AsCString(f: Field): Option<string> {
    match f
    case Absent => Some("")
    case Str(s) => Some(s)
    case _ => None
  }

  /** The three parameters of a CREATE_SNAPSHOT request, or None when reading one of
      them throws. */
  function ReadParams(d: Data): (r: Option<(string, string, string)>)
    ensures d.NoData? ==> r == Some(("", "", ""))
    ensures r.None? <==>
      d.DataNotObject?
      || (d.Members? && (AsCString(d.outputDirectory).None? || AsCString(d.filenamePrefix).None?
                         || AsCString(d.imageFormat).None?))
    ensures d.Members? && r.Some? ==>
      r.value == (AsCString(d.outputDirectory).value, AsCString(d.filenamePrefix).value,
                  AsCString(d.imageFormat).value)
  {
    match d
    case NoData => Some(("", "", ""))
    case DataNotObject => None
    case Members(dir, prefix, format) =>
      if AsCString(dir).None? || AsCString(prefix).None? || AsCString(format).None? then None
      else Some((AsCString(dir).value, AsCString(prefix).value, AsCString(format).value))
  }

  // ---------------------------------------------------------------------------
  // State

  /** The variables main() shares with the handlers: the status and the stored start-up
      message; whether the selected device, the device iterator and the imaging factory
      are held; the configuration; whether the server listens; the number of snapshot
      captures StartCapture has started and StopCapture has not yet stopped; and counts of the device's StartCapture
      successes and StopCapture and CancelCapture calls made for snapshot requests
      and cleanups. */
  datatype State = State(status: ServerStatus, initErrMsg: string, device: bool, deviceIterator: bool, factory: bool,
                         config: Startup.Config, listening: bool, pending: nat,
                         starts: nat, stops: nat, cancels: nat)

  function Initial(): State {
    State(Initializing, "initializing", false, false, false, Startup.Config(Startup.ModeNTSC, "", 0, false),
          false, 0, 0, 0, 0)
  }

  /** The behaviour as the source is written, or with the three corrections the findings
      describe: a failed StartCapture returns the server to IDLE before it is reported,
      INITIALIZATION_ERROR is kept by every error, and PROCESSING is kept by every error
      while a snapshot's capture is running. */
  datatype Build = AsWritten | Corrected

  /** What a handler did: answered OK (with a file path for a snapshot), threw, left an
      admitted snapshot to the capture worker, called through a null device, or assigned
      a new worker to the shared capture thread while an earlier request still waits to
      join it, which makes std::thread terminate the process. */
  datatype Handled = Done(filepath: string) | Threw(e: Raised) | Admitted | NullDevice | Terminated

  /** What the client gets: an HTTP status with a response document, nothing yet (the
      capture is running), nothing because the process crashed, or nothing because no
      server is listening (or no capture is running to complete). */
  datatype Reply = Http(httpStatus: int, response: Response) | Awaiting | Crash | Silent

  // ---------------------------------------------------------------------------
  // The POST handler

  /** IS_INITIALIZED: OK once the server is past initialization, otherwise the stored
      start-up message as an initialization error. */
  function IsInitializedStep(s: State): (State, Handled) {
    if Rank(s.status) > Rank(Initializing) then (s, Done(""))
    else (s, Threw(Throw(InitializationError, s.initErrMsg)))
  }

  /** SHUTDOWN: cancel the capture on the device and release it, release the iterator
      and the imaging factory, answer OK and stop listening. */
  function ShutdownStep(s: State): (State, Handled) {
    (s.(device := false, deviceIterator := false, factory := false, listening := false,
        cancels := s.cancels + if s.device then 1 else 0),
     Done(""))
  }

  /** CREATE_SNAPSHOT, up to starting the capture: only an IDLE server admits a
      snapshot; it becomes PROCESSING before the parameters are read and validated and
      the capture is started. */
  function AdmitStep(b: Build, s: State, data: Data, isDirectory: string -> bool, startHr: int): (State, Handled) {
    if Rank(s.status) < Rank(Idle) then (s, Threw(Throw(InitializationError, s.initErrMsg)))
    else if Rank(s.status) > Rank(Idle) then (s, Threw(Throw(CaptureError, "server is processing another snapshot")))
    else
      var s1 := s.(status := Processing);
      match ReadParams(data)
      case None => (s1, Threw(JsonLogicError))
      case Some(params) =>
        match ValidateRequestParams(params.0, params.1, params.2, isDirectory)
        case Some(e) => (s1, Threw(Raised(TypeName(e.kind), e.what)))
        case None => StartStep(b, s1, startHr)
  }

  /** Starting the capture of an admitted snapshot, with the server PROCESSING: through a
      missing device this crashes; a failed start is thrown as a capture error (the
      corrected build first returns to IDLE); a started capture is handed to a new
      worker on the one capture thread, which is left running, unless an earlier
      snapshot's worker is still unjoined on that thread, in which case the assignment
      terminates the process with both captures started. */
  function StartStep(b: Build, s: State, startHr: int): (State, Handled) {
    if !s.device then (s, NullDevice)
    else if startHr != ImageWriter.S_OK then
      (if b == Corrected then s.(status := Idle) else s, Threw(Throw(CaptureError, StartCaptureFailed)))
    else
      var s1 := s.(pending := s.pending + 1, starts := s.starts + 1);
      if s.pending > 0 then (s1, Terminated) else (s1, Admitted)
  }

  /** The POST handler: parse the body, read the command and dispatch on it. */
  function Handle(b: Build, s: State, body: Body, isDirectory: string -> bool, startHr: int): (State, Handled) {
    match body
    case Unparsable => (s, Threw(Throw(InvalidRequest, ParseFailed)))
    case BodyNotObject => (s, Threw(JsonLogicError))
    case Object(command, data) =>
      match AsString(command)
      case None => (s, Threw(JsonLogicError))
      case Some(cmd) =>
        if cmd == "IS_INITIALIZED" then IsInitializedStep(s)
        else if cmd == "SHUTDOWN" then ShutdownStep(s)
        else if cmd == "CREATE_SNAPSHOT" then AdmitStep(b, s, data, isDirectory, startHr)
        else (s, Threw(Throw(InvalidRequest, "'command' key not found or not supported '" + cmd + "'")))
  }

  /** The end of CREATE_SNAPSHOT, once the capture worker has returned its file path and
      error text: stop the capture, return to IDLE, and answer with the file path or
      throw the worker's error. */
  function FinishStep(s: State, filepath: string, err: string): (State, Handled)
    requires s.pending > 0
  {
    if !s.device then (s, NullDevice)
    else
      var s1 := s.(status := Idle, pending := s.pending - 1, stops := s.stops + 1);
      if err != "" then (s1, Threw(Throw(CaptureError, err))) else (s1, Done(filepath))
  }

  // ---------------------------------------------------------------------------
  // The error handler and the response

  /** The status the error handler leaves: the table's, except that the corrected build
      keeps INITIALIZATION_ERROR, and keeps the status while a capture is running. */
  function NextStatus(b: Build, r: ErrorReply, status: ServerStatus, pending: nat): ServerStatus {
    if b == Corrected && (status == InitError || pending > 0) then status else r.next
  }

  /** Turning what a handler did into the reply: OK responses for answers, and the error
      handler's table for exceptions. */
  function Answer(b: Build, s: State, h: Handled): (State, Reply) {
    match h
    case Done(filepath) => (s, Http(200, MakeResponse(ResultOk, filepath, 0, "")))
    case Threw(e) =>
      var r := ErrorTable(e.typeName, e.what, s.status);
      (s.(status := NextStatus(b, r, s.status, s.pending)), Http(r.httpStatus, MakeResponse(ResultNg, "", r.code, r.message)))
    case Admitted => (s, Awaiting)
    case NullDevice => (s, Crash)
    case Terminated => (s, Crash)
  }

  /** Serving one request. A request for an unknown URL reaches the error handler with
      no exception type. */
  function Serve(b: Build, s: State, req: Request, isDirectory: string -> bool, startHr: int): (State, Reply) {
    if !s.listening then (s, Silent)
    else
      match req
      case UrlError => Answer(b, s, Threw(Raised("", "")))
      case Post(body) =>
        var (s1, h) := Handle(b, s, body, isDirectory, startHr);
        Answer(b, s1, h)
  }

  /** Completing the oldest running capture with the worker's result. */
  function Complete(b: Build, s: State, filepath: string, err: string): (State, Reply) {
    if s.pending == 0 then (s, Silent)
    else
      var (s1, h) := FinishStep(s, filepath, err);
      Answer(b, s1, h)
  }

  /** The events the server sees after start-up: a request (with the file system's
      answer on directories and the device's answer to StartCapture), or a capture
      worker returning. */
  datatype Event =
    | Receive(req: Request, isDirectory: string -> bool, startHr: int)
    | WorkerReturns(filepath: string, err: string)

  function Step(b: Build, s: State, e: Event): (State, Reply) {
    match e
    case Receive(req, isDirectory, startHr) => Serve(b, s, req, isDirectory, startHr)
    case WorkerReturns(filepath, err) => Complete(b, s, filepath, err)
  }

  /** The state after a sequence of events; a crash ends the process. */
  function Run(b: Build, s: State, events: seq<Event>): State
    decreases |events|
  {
    if |events| == 0 then s
    else
      var (s1, r) := Step(b, s, events[0]);
      if r == Crash then s1 else Run(b, s1, events[1..])
  }

  // ---------------------------------------------------------------------------
  // Start-up

  /** The state the start-up leaves. A rejected port ends the process before it
      listens; a failure releases the device (cancelling its capture), the iterator and
      the imaging factory, records the message, and goes on to listen on the port number
      as it stands, which succeeds only for a port a socket can be bound to; success
      keeps the resources and the configuration and listens. */
  function AfterBoot(s: State, boot: Startup.Boot): State {
    match boot
    case PortRejected => s.(deviceIterator := true, factory := true, listening := false)
    case BootFailed(msg, selected, _, port) =>
      s.(status := InitError, initErrMsg := msg, device := false, deviceIterator := false, factory := false,
         listening := Startup.Listenable(port), cancels := s.cancels + if selected then 1 else 0)
    case Booted(config) =>
      s.(status := Idle, device := true, deviceIterator := true, factory := true, config := config, listening := true)
  }

  // ---------------------------------------------------------------------------
  // Properties

  function Command(cmd: string): Request {
    Post(Object(Str(cmd), NoData))
  }

  function Snapshot(data: Data): Request {
    Post(Object(Str("CREATE_SNAPSHOT"), data))
  }

  /** The code an HTTP reply carries, or 0 for an OK or no reply. */
  function CodeOf(r: Reply): int {
    if r.Http? && "code" in r.response.body && r.response.body["code"].JInt? then r.response.body["code"].i else 0
  }

  /** IS_INITIALIZED never changes the state. It answers OK exactly when the server is
      IDLE or PROCESSING; otherwise it reports the stored start-up message, as a warning
      (900) while INITIALIZING and as an error (901, "InitializationError: " prefix)
      otherwise. */
  lemma IsInitializedReply(b: Build, s: State, isDirectory: string -> bool, startHr: int)
    requires s.listening
    ensures var (s1, r) := Serve(b, s, Command("IS_INITIALIZED"), isDirectory, startHr);
            && s1 == s
            && (r == Http(200, MakeResponse(ResultOk, "", 0, "")) <==> s.status == Idle || s.status == Processing)
            && (s.status == Initializing ==>
                  r == Http(200, MakeResponse(ResultNg, "", WarnInitializing, s.initErrMsg)))
            && (s.status == InitError ==>
                  r == Http(500, MakeResponse(ResultNg, "", ErrorInitialization, "InitializationError: " + s.initErrMsg)))
  {
    if s.status == Initializing || s.status == InitError {
      InitializationErrorReply(s.initErrMsg, s.status);
      var r := Serve(b, s, Command("IS_INITIALIZED"), isDirectory, startHr).1;
      assert r.response.response == ResultNg;
    }
  }

  /** A snapshot request while another is processing is answered with the 910 warning
      and changes nothing. */
  lemma BusyRejected(b: Build, s: State, data: Data, isDirectory: string -> bool, startHr: int)
    requires s.listening && s.status == Processing
    ensures Serve(b, s, Snapshot(data), isDirectory, startHr)
            == (s, Http(200, MakeResponse(ResultNg, "", WarnProcessing, "server is processing another snapshot")))
  {
    var e := Throw(CaptureError, "server is processing another snapshot");
    assert Handle(b, s, Object(Str("CREATE_SNAPSHOT"), data), isDirectory, startHr) == (s, Threw(e));
    CaptureErrorReply(e.what, Processing);
    assert s.(status := Processing) == s;
  }

  /** A snapshot request is answered with the stored start-up message while the server
      is below IDLE, and changes nothing: the bare message as the 900 warning while
      INITIALIZING, with the "InitializationError: " prefix as the 901 error after a
      failed start-up. */
  lemma NotReadyRejected(b: Build, s: State, data: Data, isDirectory: string -> bool, startHr: int)
    requires s.listening && Rank(s.status) < Rank(Idle)
    ensures var (s1, r) := Serve(b, s, Snapshot(data), isDirectory, startHr);
            && s1 == s
            && (s.status == Initializing ==>
                  r == Http(200, MakeResponse(ResultNg, "", WarnInitializing, s.initErrMsg)))
            && (s.status == InitError ==>
                  r == Http(500, MakeResponse(ResultNg, "", ErrorInitialization, "InitializationError: " + s.initErrMsg)))
  {
    var e := Throw(InitializationError, s.initErrMsg);
    assert Handle(b, s, Object(Str("CREATE_SNAPSHOT"), data), isDirectory, startHr) == (s, Threw(e));
    InitializationErrorReply(s.initErrMsg, s.status);
  }

  /** Only an IDLE server moves to PROCESSING on a snapshot request, and only by
      starting a capture: every other outcome of the request leaves it as it was or
      returns it to IDLE. */
  lemma AdmissionOnlyFromIdle(b: Build, s: State, data: Data, isDirectory: string -> bool, startHr: int)
    requires s.listening && s.status != Processing
    ensures var (s1, r) := Serve(b, s, Snapshot(data), isDirectory, startHr);
            s1.status == Processing ==> s.status == Idle
  {
    var (s0, h) := Handle(b, s, Object(Str("CREATE_SNAPSHOT"), data), isDirectory, startHr);
    AdmitStatus(b, s, data, isDirectory, startHr);
    if h.Threw? {
      ErrorTableClasses(h.e.typeName, h.e.what, s0.status);
    }
  }

  /** Admission either leaves the state as it was or, from IDLE only, moves to
      PROCESSING. */
  lemma AdmitStatus(b: Build, s: State, data: Data, isDirectory: string -> bool, startHr: int)
    ensures var s1 := AdmitStep(b, s, data, isDirectory, startHr).0;
            s1 == s || (s.status == Idle && s1.status == Processing)
  {
    if s.status == Idle && ReadParams(data).Some? {
      var (dir, prefix, format) := ReadParams(data).value;
      if ValidateRequestParams(dir, prefix, format, isDirectory).None? && s.device && startHr == ImageWriter.S_OK {
        assert AdmitStep(b, s, data, isDirectory, startHr).0.status == Processing;
      }
    }
  }

  /** What the handler makes of a snapshot request with valid parameters on an IDLE
      server: it calls StartCapture through the device, which crashes when the device
      is missing; otherwise the capture starts or fails. */
  lemma ValidSnapshotHandled(b: Build, s: State, dir: string, prefix: string, format: string,
                             isDirectory: string -> bool, startHr: int)
    requires s.status == Idle
    requires ValidateRequestParams(dir, prefix, format, isDirectory).None?
    ensures Handle(b, s, Object(Str("CREATE_SNAPSHOT"), Members(Str(dir), Str(prefix), Str(format))),
                   isDirectory, startHr)
            == if !s.device then (s.(status := Processing), NullDevice)
               else if startHr != ImageWriter.S_OK then
                 (if b == Corrected then s else s.(status := Processing),
                  Threw(Throw(CaptureError, StartCaptureFailed)))
               else (s.(status := Processing, pending := s.pending + 1, starts := s.starts + 1),
                     if s.pending > 0 then Terminated else Admitted)
  {
    assert ReadParams(Members(Str(dir), Str(prefix), Str(format))) == Some((dir, prefix, format));
  }

  /** An admitted snapshot request whose parameters are valid and whose capture starts
      is left to the worker: the server is PROCESSING with one more capture running.
      When an earlier capture is still unjoined the process terminates instead. */
  lemma AdmitStartsCapture(b: Build, s: State, dir: string, prefix: string, format: string,
                           isDirectory: string -> bool)
    requires s.listening && s.status == Idle && s.device
    requires ValidateRequestParams(dir, prefix, format, isDirectory).None?
    ensures Serve(b, s, Snapshot(Members(Str(dir), Str(prefix), Str(format))), isDirectory, ImageWriter.S_OK)
            == (s.(status := Processing, pending := s.pending + 1, starts := s.starts + 1),
                if s.pending == 0 then Awaiting else Crash)
  {
    ValidSnapshotHandled(b, s, dir, prefix, format, isDirectory, ImageWriter.S_OK);
  }

  /** Invalid parameters end the request in IDLE with code 911 and the validation
      message, and no capture is started. (In the corrected build an IDLE server has no
      capture running, which `RunKeepsOneCapture` establishes.) */
  lemma InvalidParamsEndIdle(b: Build, s: State, dir: string, prefix: string, format: string,
                             isDirectory: string -> bool, startHr: int)
    requires s.listening && s.status == Idle
    requires b == Corrected ==> s.pending == 0
    requires ValidateRequestParams(dir, prefix, format, isDirectory).Some?
    ensures var (s1, r) := Serve(b, s, Snapshot(Members(Str(dir), Str(prefix), Str(format))), isDirectory, startHr);
            && s1 == s
            && r == Http(400, MakeResponse(ResultNg, "", ErrorInvalidParams,
                                           "InvalidParams: " + ValidateRequestParams(dir, prefix, format, isDirectory).value.what))
  {
    var e := ValidateRequestParams(dir, prefix, format, isDirectory).value;
    InvalidParamsReply(e.what, Processing);
  }

  /** A capture worker that reports an error ends the request in IDLE with code 912 and
      the "CaptureError: " prefix, after stopping the capture once. */
  lemma WorkerErrorEndsIdle(b: Build, s: State, filepath: string, err: string)
    requires s.pending > 0 && s.device && err != ""
    ensures Complete(b, s, filepath, err)
            == (s.(status := Idle, pending := s.pending - 1, stops := s.stops + 1),
                Http(500, MakeResponse(ResultNg, "", ErrorCapture, "CaptureError: " + err)))
  {
    CaptureErrorReply(err, Idle);
  }

  /** A capture worker that succeeds ends the request in IDLE with OK and its file path,
      after stopping the capture once. */
  lemma WorkerSuccessEndsIdle(b: Build, s: State, filepath: string)
    requires s.pending > 0 && s.device
    ensures Complete(b, s, filepath, "")
            == (s.(status := Idle, pending := s.pending - 1, stops := s.stops + 1),
                Http(200, MakeResponse(ResultOk, filepath, 0, "")))
  {
  }

  /** Every StartCapture that succeeds for a snapshot is matched by exactly one
      StopCapture when its request completes: every step keeps the number of started
      captures equal to those stopped plus those still running. */
  lemma StepKeepsCaptureBalance(b: Build, s: State, e: Event)
    requires s.starts == s.stops + s.pending
    ensures var s1 := Step(b, s, e).0; s1.starts == s1.stops + s1.pending
  {
    match e
    case Receive(req, isDirectory, startHr) =>
      if s.listening && req.Post? {
        var (s0, h) := Handle(b, s, req.body, isDirectory, startHr);
        HandleKeepsCaptureBalance(b, s, req.body, isDirectory, startHr);
        AnswerChangesOnlyStatus(b, s0, h);
      } else if s.listening {
        AnswerChangesOnlyStatus(b, s, Threw(Raised("", "")));
      }
    case WorkerReturns(filepath, err) =>
      if s.pending > 0 {
        var (s0, h) := FinishStep(s, filepath, err);
        AnswerChangesOnlyStatus(b, s0, h);
      }
  }

  /** The handler starts a capture exactly when it admits one more snapshot, and
      stops none. */
  lemma HandleKeepsCaptureBalance(b: Build, s: State, body: Body, isDirectory: string -> bool, startHr: int)
    ensures var s1 := Handle(b, s, body, isDirectory, startHr).0;
            s1.starts - s.starts == s1.pending - s.pending && s1.stops == s.stops
  {
    if body.Object? && AsString(body.command) == Some("CREATE_SNAPSHOT") {
      AdmitKeepsCaptureBalance(b, s, body.data, isDirectory, startHr);
    }
  }

  lemma AdmitKeepsCaptureBalance(b: Build, s: State, data: Data, isDirectory: string -> bool, startHr: int)
    ensures var s1 := AdmitStep(b, s, data, isDirectory, startHr).0;
            s1.starts - s.starts == s1.pending - s.pending && s1.stops == s.stops
  {
    if s.status == Idle && ReadParams(data).Some? {
      var (dir, prefix, format) := ReadParams(data).value;
      if ValidateRequestParams(dir, prefix, format, isDirectory).None? && s.device && startHr == ImageWriter.S_OK {
        assert AdmitStep(b, s, data, isDirectory, startHr).0.pending == s.pending + 1;
      }
    }
  }

  /** Turning a handler's outcome into a reply changes at most the status. */
  lemma AnswerChangesOnlyStatus(b: Build, s: State, h: Handled)
    ensures Answer(b, s, h).0 == s.(status := Answer(b, s, h).0.status)
  {
  }

  lemma {:induction false} RunKeepsCaptureBalance(b: Build, s: State, events: seq<Event>)
    requires s.starts == s.stops + s.pending
    ensures var s1 := Run(b, s, events); s1.starts == s1.stops + s1.pending
    decreases |events|
  {
    if |events| > 0 {
      StepKeepsCaptureBalance(b, s, events[0]);
      RunKeepsCaptureBalance(b, Step(b, s, events[0]).0, events[1..]);
    }
  }

  /** Once the start-up has ended, no step brings the server back to INITIALIZING, so the
      WARN_INITIALIZING code is never sent again. */
  lemma StepAfterStartup(b: Build, s: State, e: Event)
    requires s.status != Initializing
    ensures Step(b, s, e).0.status != Initializing
    ensures CodeOf(Step(b, s, e).1) != WarnInitializing
  {
    match e
    case Receive(req, isDirectory, startHr) =>
      if s.listening && req.Post? {
        var (s0, h) := Handle(b, s, req.body, isDirectory, startHr);
        HandleStatus(b, s, req.body, isDirectory, startHr);
        AnswerAfterStartup(b, s0, h);
      } else if s.listening {
        AnswerAfterStartup(b, s, Threw(Raised("", "")));
      }
    case WorkerReturns(filepath, err) =>
      if s.pending > 0 {
        var (s0, h) := FinishStep(s, filepath, err);
        AnswerAfterStartup(b, s0, h);
      }
  }

  /** The handler leaves the status as it was or sets it to PROCESSING. */
  lemma HandleStatus(b: Build, s: State, body: Body, isDirectory: string -> bool, startHr: int)
    ensures var s1 := Handle(b, s, body, isDirectory, startHr).0;
            s1.status == s.status || s1.status == Processing
  {
    if body.Object? && AsString(body.command) == Some("CREATE_SNAPSHOT") {
      AdmitStatus(b, s, body.data, isDirectory, startHr);
    }
  }

  /** Past initialization, no answer brings the status back to INITIALIZING or carries
      the WARN_INITIALIZING code. */
  lemma AnswerAfterStartup(b: Build, s: State, h: Handled)
    requires s.status != Initializing
    ensures Answer(b, s, h).0.status != Initializing
    ensures CodeOf(Answer(b, s, h).1) != WarnInitializing
  {
    if h.Threw? {
      ErrorTableAfterStartup(h.e.typeName, h.e.what, s.status);
    }
  }

  lemma {:induction false} RunAfterStartup(b: Build, s: State, events: seq<Event>)
    requires s.status != Initializing
    ensures Run(b, s, events).status != Initializing
    decreases |events|
  {
    if |events| > 0 {
      StepAfterStartup(b, s, events[0]);
      RunAfterStartup(b, Step(b, s, events[0]).0, events[1..]);
    }
  }

  /** A server that listens has finished its start-up, so it is never INITIALIZING. It
      listens after a successful start-up, never after a rejected port, and after a
      failed one exactly when its port number can be bound. Every failure, whatever
      stage it came from, leaves INITIALIZATION_ERROR with the exception's message
      stored and the device, the iterator and the factory given up. */
  lemma ListeningAfterBoot(boot: Startup.Boot)
    ensures AfterBoot(Initial(), boot).listening ==> AfterBoot(Initial(), boot).status != Initializing
    ensures AfterBoot(Initial(), boot).listening <==>
      boot.Booted? || (boot.BootFailed? && Startup.Listenable(boot.port))
    ensures boot.Booted? <==> AfterBoot(Initial(), boot).status == Idle
    ensures boot.BootFailed? ==>
      var s1 := AfterBoot(Initial(), boot);
      s1.status == InitError && s1.initErrMsg == boot.message && !s1.device && !s1.deviceIterator && !s1.factory
  {
  }

  /** When COM, the imaging factory or the device iterator fails, the command line has
      not been scanned and the port is -1, so the server never answers; a missing
      device index is reported before the port is checked, so the server then listens
      in INITIALIZATION_ERROR on whatever bindable port was given, in range or not. */
  lemma FailedBootListening(argv: seq<string>, p: Startup.Platform)
    requires Startup.ScanArgs(argv).Some?
    ensures var f := Startup.ScanArgs(argv).value;
            var s := AfterBoot(Initial(), Startup.BootSpec(argv, p));
            var platformFailed := ImageWriter.Failed(p.comHr) || ImageWriter.Failed(p.imageWriterHr)
                                  || p.iteratorHr != ImageWriter.S_OK;
            && (platformFailed ==> s.status == InitError && !s.listening)
            && (!platformFailed && f.deckLinkIndex < 0 ==>
                  s.status == InitError && (s.listening <==> Startup.Listenable(f.portNo)))
  {
    var f := Startup.ScanArgs(argv).value;
    var boot := Startup.BootSpec(argv, p);
    if boot.BootFailed? {
      Startup.FailedBootPort(argv, p);
    }
    if !ImageWriter.Failed(p.comHr) && !ImageWriter.Failed(p.imageWriterHr) && p.iteratorHr == ImageWriter.S_OK
       && f.deckLinkIndex < 0 {
      Startup.BootedIff(argv, p);
    }
  }

  /** SHUTDOWN while a capture is running releases the device, so the running request
      calls StopCapture through a null device when its worker returns. */
  lemma ShutdownDuringCaptureCrashes(b: Build, s: State, isDirectory: string -> bool, startHr: int,
                                     filepath: string, err: string)
    requires s.listening && s.pending > 0
    ensures var s1 := Serve(b, s, Command("SHUTDOWN"), isDirectory, startHr).0;
            !s1.listening && Complete(b, s1, filepath, err).1 == Crash
  {
  }


  // ---------------------------------------------------------------------------
  // Findings

  /** As written: an unparsable request while a snapshot is processing returns the
      server to IDLE, so a second snapshot is admitted and StartCapture is called a
      second time while the first request still waits to join the capture thread;
      assigning the second worker to that thread then terminates the process. */
  lemma BadRequestReopensAdmission(s: State, dir: string, prefix: string, format: string,
                                   isDirectory: string -> bool, startHr: int)
    requires s.listening && s.status == Processing && s.pending == 1 && s.device
    requires ValidateRequestParams(dir, prefix, format, isDirectory).None?
    ensures var s1 := Serve(AsWritten, s, Post(Unparsable), isDirectory, startHr).0;
            var (s2, r) := Serve(AsWritten, s1, Snapshot(Members(Str(dir), Str(prefix), Str(format))),
                                 isDirectory, ImageWriter.S_OK);
            s1.status == Idle && r == Crash && s2.starts == s.starts + 1
  {
    var e := Throw(InvalidRequest, ParseFailed);
    RequestErrorsResetToIdle(e.typeName, e.what, Processing);
    var s1 := Serve(AsWritten, s, Post(Unparsable), isDirectory, startHr).0;
    assert s1 == s.(status := Idle);
    ValidSnapshotHandled(AsWritten, s1, dir, prefix, format, isDirectory, ImageWriter.S_OK);
  }

  /** At most one snapshot capture runs, and while it runs the server is PROCESSING. */
  predicate OneCapture(s: State) {
    s.pending <= 1 && (s.pending == 1 ==> s.status == Processing)
  }

  /** Corrected: the handler keeps at most one capture running. */
  lemma HandleKeepsOneCapture(s: State, body: Body, isDirectory: string -> bool, startHr: int)
    requires OneCapture(s)
    ensures OneCapture(Handle(Corrected, s, body, isDirectory, startHr).0)
  {
    if body.Object? && AsString(body.command) == Some("CREATE_SNAPSHOT") && s.status == Idle {
      AdmitKeepsCaptureBalance(Corrected, s, body.data, isDirectory, startHr);
      AdmitStatus(Corrected, s, body.data, isDirectory, startHr);
    }
  }

  /** Corrected: every event keeps at most one capture running, and PROCESSING while it
      runs; an error answered during a capture leaves the status alone. */
  lemma StepKeepsOneCapture(s: State, e: Event)
    requires OneCapture(s)
    ensures OneCapture(Step(Corrected, s, e).0)
  {
    match e
    case Receive(req, isDirectory, startHr) =>
      if s.listening && req.Post? {
        var (s0, h) := Handle(Corrected, s, req.body, isDirectory, startHr);
        HandleKeepsOneCapture(s, req.body, isDirectory, startHr);
        AnswerChangesOnlyStatus(Corrected, s0, h);
      } else if s.listening {
        AnswerChangesOnlyStatus(Corrected, s, Threw(Raised("", "")));
      }
    case WorkerReturns(filepath, err) =>
      if s.pending > 0 {
        var (s0, h) := FinishStep(s, filepath, err);
        AnswerChangesOnlyStatus(Corrected, s0, h);
      }
  }

  lemma {:induction false} RunKeepsOneCapture(s: State, events: seq<Event>)
    requires OneCapture(s)
    ensures OneCapture(Run(Corrected, s, events))
    decreases |events|
  {
    if |events| > 0 {
      StepKeepsOneCapture(s, events[0]);
      RunKeepsOneCapture(Step(Corrected, s, events[0]).0, events[1..]);
    }
  }

  /** Corrected: an unparsable request while a capture runs is answered with 990 and
      leaves the server PROCESSING, so the next snapshot request gets the 910 warning of
      `BusyRejected` and starts nothing. */
  lemma BadRequestKeepsProcessing(s: State, isDirectory: string -> bool, startHr: int)
    requires s.listening && s.status == Processing && s.pending == 1
    ensures Serve(Corrected, s, Post(Unparsable), isDirectory, startHr)
            == (s, Http(400, MakeResponse(ResultNg, "", ErrorInvalidRequest, "InvalidRequest: " + ParseFailed)))
  {
    var e := Throw(InvalidRequest, ParseFailed);
    assert Handle(Corrected, s, Unparsable, isDirectory, startHr) == (s, Threw(e));
    InvalidRequestReply(e.what, Processing);
    assert s.(status := Processing) == s;
  }

  /** As written: a StartCapture that fails is reported as a CaptureError while the
      status is already PROCESSING, which the error handler answers with the 910 "busy"
      warning and leaves PROCESSING; no capture is running, so nothing returns the server
      to IDLE and every later snapshot request gets 910 too. */
  lemma {:induction false} StartFailureStuck(s: State, dir: string, prefix: string, format: string,
                                             isDirectory: string -> bool, startHr: int, later: seq<Data>)
    requires s.listening && s.status == Idle && s.device && startHr != ImageWriter.S_OK
    requires ValidateRequestParams(dir, prefix, format, isDirectory).None?
    ensures var (s1, r) := Serve(AsWritten, s, Snapshot(Members(Str(dir), Str(prefix), Str(format))),
                                 isDirectory, startHr);
            && s1 == s.(status := Processing)
            && CodeOf(r) == WarnProcessing
            && RunSnapshots(AsWritten, s1, later, isDirectory, startHr) == s1
  {
    ValidSnapshotHandled(AsWritten, s, dir, prefix, format, isDirectory, startHr);
    CaptureErrorReply(StartCaptureFailed, Processing);
    var s1 := s.(status := Processing);
    SnapshotsWhileProcessing(s1, later, isDirectory, startHr);
  }

  /** The state after a sequence of snapshot requests. */
  function RunSnapshots(b: Build, s: State, requests: seq<Data>, isDirectory: string -> bool, startHr: int): State
    decreases |requests|
  {
    if |requests| == 0 then s
    else RunSnapshots(b, Serve(b, s, Snapshot(requests[0]), isDirectory, startHr).0, requests[1..], isDirectory, startHr)
  }

  lemma {:induction false} SnapshotsWhileProcessing(s: State, requests: seq<Data>, isDirectory: string -> bool,
                                                    startHr: int)
    requires s.listening && s.status == Processing
    ensures RunSnapshots(AsWritten, s, requests, isDirectory, startHr) == s
    decreases |requests|
  {
    if |requests| > 0 {
      BusyRejected(AsWritten, s, requests[0], isDirectory, startHr);
      SnapshotsWhileProcessing(s, requests[1..], isDirectory, startHr);
    }
  }

  /** Corrected: a failed StartCapture leaves the server IDLE and is reported as a
      capture failure (912), so the next request can be admitted. */
  lemma StartFailureRecovers(s: State, dir: string, prefix: string, format: string,
                             isDirectory: string -> bool, startHr: int)
    requires s.listening && s.status == Idle && s.device && startHr != ImageWriter.S_OK
    requires ValidateRequestParams(dir, prefix, format, isDirectory).None?
    ensures Serve(Corrected, s, Snapshot(Members(Str(dir), Str(prefix), Str(format))), isDirectory, startHr)
            == (s, Http(500, MakeResponse(ResultNg, "", ErrorCapture, "CaptureError: " + StartCaptureFailed)))
  {
    ValidSnapshotHandled(Corrected, s, dir, prefix, format, isDirectory, startHr);
    var e := Throw(CaptureError, StartCaptureFailed);
    assert e == Raised(TypeName(CaptureError), StartCaptureFailed);
    CaptureErrorReply(e.what, Idle);
    var r := ErrorTable(e.typeName, e.what, s.status);
    assert s.(status := Idle) == s;
    var body := Object(Str("CREATE_SNAPSHOT"), Members(Str(dir), Str(prefix), Str(format)));
    assert Snapshot(Members(Str(dir), Str(prefix), Str(format))) == Post(body);
    assert Serve(Corrected, s, Post(body), isDirectory, startHr) == Answer(Corrected, s, Threw(e));
  }

  /** As written: after a failed start-up (no device, INITIALIZATION_ERROR) one request
      for an unknown URL sets the status to IDLE, and a valid snapshot request then
      calls StartCapture through the null device. */
  lemma ErrorStateNotSticky(s: State, dir: string, prefix: string, format: string,
                            isDirectory: string -> bool, startHr: int)
    requires s.listening && s.status == InitError && !s.device
    requires ValidateRequestParams(dir, prefix, format, isDirectory).None?
    ensures var s1 := Serve(AsWritten, s, UrlError, isDirectory, startHr).0;
            && s1.status == Idle
            && Serve(AsWritten, s1, Snapshot(Members(Str(dir), Str(prefix), Str(format))), isDirectory, startHr).1
               == Crash
  {
    RequestErrorsResetToIdle("", "", InitError);
    var s1 := Serve(AsWritten, s, UrlError, isDirectory, startHr).0;
    assert s1 == s.(status := Idle);
    ValidSnapshotHandled(AsWritten, s1, dir, prefix, format, isDirectory, startHr);
  }

  /** Corrected: a server that failed its start-up stays in INITIALIZATION_ERROR
      whatever it is sent, never reaches the device, and answers every snapshot request
      with the 901 initialization error. */
  lemma StepKeepsInitError(s: State, e: Event)
    requires s.status == InitError && !s.device && s.pending == 0
    ensures var (s1, r) := Step(Corrected, s, e);
            s1.status == InitError && !s1.device && s1.pending == 0 && r != Crash
    ensures (e.Receive? && e.req.Post? && e.req.body.Object? && AsString(e.req.body.command) == Some("CREATE_SNAPSHOT")
             && s.listening) ==> CodeOf(Step(Corrected, s, e).1) == ErrorInitialization
  {
    if e.Receive? && e.req.Post? && s.listening {
      HandleBeforeIdle(Corrected, s, e.req.body, e.isDirectory, e.startHr);
      if e.req.body.Object? && AsString(e.req.body.command) == Some("CREATE_SNAPSHOT") {
        InitializationErrorReply(s.initErrMsg, InitError);
      }
    }
  }

  /** Below IDLE the handler starts nothing and keeps the status; it can only give up
      the device. */
  lemma HandleBeforeIdle(b: Build, s: State, body: Body, isDirectory: string -> bool, startHr: int)
    requires Rank(s.status) < Rank(Idle)
    ensures var (s1, h) := Handle(b, s, body, isDirectory, startHr);
            && s1.status == s.status && (s1.device ==> s.device) && s1.pending == s.pending
            && (h.Done? || h.Threw?)
  {
  }

  lemma {:induction false} ErrorStateSticky(s: State, events: seq<Event>)
    requires s.status == InitError && !s.device && s.pending == 0
    ensures Run(Corrected, s, events).status == InitError
    decreases |events|
  {
    if |events| > 0 {
      StepKeepsInitError(s, events[0]);
      ErrorStateSticky(Step(Corrected, s, events[0]).0, events[1..]);
    }
  }

  // ---------------------------------------------------------------------------
  // The server

  /** main()'s variables that the handlers capture by reference, and the handlers. */
  class Server {
    const build: Build
    const factory: ImageWriter.Factory
    var status: ServerStatus
    var initErrMsg: string
    var device: bool
    var deviceIterator: bool
    var config: Startup.Config
    var listening: bool
    var pending: nat
    ghost var starts: nat
    ghost var stops: nat
    ghost var cancels: nat

    ghost function Model(): State
      reads this, factory
    {
      State(status, initErrMsg, device, deviceIterator, factory.live, config, listening, pending, starts, stops, cancels)
    }

    ghost predicate Valid()
      reads this, factory
    {
      factory.Valid()
    }

    constructor (build: Build)
      ensures Valid() && Model() == Initial() && this.build == build
    {
      this.build := build;
      factory := new ImageWriter.Factory();
      status, initErrMsg := Initializing, "initializing";
      device, deviceIterator := false, false;
      config := Startup.Config(Startup.ModeNTSC, "", 0, false);
      listening, pending := false, 0;
      starts, stops, cancels := 0, 0, 0;
    }

    /** The start-up, with the catch block's cleanup on every failure. */
    method Boot(argv: seq<string>, p: Startup.Platform)
      requires Valid() && Model() == Initial() && Startup.ScanArgs(argv).Some?
      modifies this, factory
      ensures Valid()
      ensures Model() == AfterBoot(old(Model()), Startup.BootSpec(argv, p))
    {
      var boot := Attempt(argv, p);
      Record(boot);
    }

    /** What the start-up leaves once its outcome is known: the catch block's cleanup on
        a failure, the negotiated configuration on success. */
    method Record(boot: Startup.Boot)
      requires Valid() && (boot.BootFailed? || factory.live)
      modifies this, factory
      ensures Valid()
      ensures Model() == AfterBoot(old(Model()), boot)
    {
      match boot
      case PortRejected =>
        deviceIterator, listening := true, false;
      case BootFailed(msg, selected, _, port) =>
        status, initErrMsg := InitError, msg;
        if selected {
          cancels := cancels + 1;
        }
        device, deviceIterator := false, false;
        var _ := factory.UnInitialize();
        listening := Startup.Listenable(port);
      case Booted(negotiated) =>
        device, deviceIterator := true, true;
        config, status := negotiated, Idle;
        listening := true;
    }

    /** The body of the start-up's try block: each check in the order the start-up
        makes it, ending at the first that fails. The imaging factory is the only
        resource it leaves changed; the caller records the rest. */
    method Attempt(argv: seq<string>, p: Startup.Platform) returns (boot: Startup.Boot)
      requires factory.Valid() && !factory.live && Startup.ScanArgs(argv).Some?
      modifies factory
      ensures factory.Valid()
      ensures boot == Startup.BootSpec(argv, p)
      ensures factory.live == (!ImageWriter.Failed(p.comHr) && !ImageWriter.Failed(p.imageWriterHr))
    {
      var portNo := -1;
      if ImageWriter.Failed(p.comHr) {
        return Startup.BootFailed("Initialization of COM failed", false, false, portNo);
      }
      var hr := factory.Initialize(p.imageWriterHr);
      if ImageWriter.Failed(hr) {
        return Startup.BootFailed("Initialization of ImageWriter failed", false, false, portNo);
      }
      if p.iteratorHr != ImageWriter.S_OK {
        return Startup.BootFailed("Initialization of deckLinkIterator failed", false, false, portNo);
      }
      var scanned := Startup.ScanArguments(argv);
      var flags := scanned.value;
      portNo := flags.portNo;
      if flags.deckLinkIndex < 0 {
        return Startup.BootFailed("You must select a device", false, false, portNo);
      }
      if !Startup.PortInRange(flags.portNo) {
        return Startup.PortRejected;
      }
      var pick, _ := Startup.SelectDevice(p.devices, flags.deckLinkIndex);
      if pick.Refused? {
        return Startup.BootFailed(pick.message, false, false, portNo);
      }
      if pick.NoneSelected? {
        return Startup.BootFailed("Invalid input device selected", false, false, portNo);
      }
      var negotiated := Startup.Negotiate(p.devices[pick.index], pick.formatDetection,
                                          flags.displayModeIndex, flags.pixelFormatIndex);
      if negotiated.Disagreed? {
        return Startup.BootFailed(negotiated.message, true, false, portNo);
      }
      if p.probeStartHr != ImageWriter.S_OK {
        return Startup.BootFailed("Failed to start capture", true, false, portNo);
      }
      if !p.frameArrives {
        return Startup.BootFailed("Timeout waiting for valid frame", true, true, portNo);
      }
      boot := Startup.Booted(negotiated.config);
    }

    /** The error handler: look the exception up in the table, update the status and
        answer with the NG response. */
    method HandleError(e: Raised) returns (reply: Reply)
      requires Valid()
      modifies this
      ensures Valid()
      ensures (Model(), reply) == Answer(build, old(Model()), Threw(e))
    {
      var r := ErrorTable(e.typeName, e.what, status);
      status := NextStatus(build, r, status, pending);
      reply := Http(r.httpStatus, MakeResponse(ResultNg, "", r.code, r.message));
    }

    /** The CREATE_SNAPSHOT branch up to starting the capture. */
    method Admit(data: Data, isDirectory: string -> bool, startHr: int) returns (handled: Handled)
      requires Valid()
      modifies this
      ensures Valid()
      ensures (Model(), handled) == AdmitStep(build, old(Model()), data, isDirectory, startHr)
    {
      if Rank(status) < Rank(Idle) {
        return Threw(Throw(InitializationError, initErrMsg));
      } else if Rank(status) > Rank(Idle) {
        return Threw(Throw(CaptureError, "server is processing another snapshot"));
      }
      handled := AdmitIdle(data, isDirectory, startHr);
    }

    /** An IDLE server admits the snapshot: PROCESSING, then the parameters, then the
        capture. */
    method AdmitIdle(data: Data, isDirectory: string -> bool, startHr: int) returns (handled: Handled)
      requires Valid() && status == Idle
      modifies this
      ensures Valid()
      ensures (Model(), handled) == AdmitStep(build, old(Model()), data, isDirectory, startHr)
    {
      status := Processing;
      var params := ReadParams(data);
      if params.None? {
        return Threw(JsonLogicError);
      }
      var (captureDirectory, filenamePrefix, imageFormat) := params.value;
      var invalid := ValidateRequestParams(captureDirectory, filenamePrefix, imageFormat, isDirectory);
      if invalid.Some? {
        return Threw(Raised(TypeName(invalid.value.kind), invalid.value.what));
      }
      handled := StartCapture(startHr);
    }

    /** StartCapture on the selected device. */
    method StartCapture(startHr: int) returns (handled: Handled)
      requires Valid()
      modifies this
      ensures Valid()
      ensures (Model(), handled) == StartStep(build, old(Model()), startHr)
    {
      if !device {
        return NullDevice;
      }
      if startHr != ImageWriter.S_OK {
        if build == Corrected {
          status := Idle;
        }
        return Threw(Throw(CaptureError, StartCaptureFailed));
      }
      starts := starts + 1;
      if pending > 0 {
        pending := pending + 1;
        return Terminated;
      }
      pending := pending + 1;
      handled := Admitted;
    }

    /** The POST handler followed by the response: dispatch on the command, then answer
        OK, hand over to the error handler, wait for the capture, or crash. */
    method HandlePost(req: Request, isDirectory: string -> bool, startHr: int) returns (reply: Reply)
      requires Valid()
      modifies this, factory
      ensures Valid()
      ensures (Model(), reply) == Serve(build, old(Model()), req, isDirectory, startHr)
    {
      if !listening {
        return Silent;
      }
      var handled: Handled;
      if req.UrlError? {
        handled := Threw(Raised("", ""));
      } else {
        handled := Dispatch(req.body, isDirectory, startHr);
      }
      reply := Respond(handled);
    }

    /** The POST handler: parse the body, read the command and dispatch on it. */
    method Dispatch(body: Body, isDirectory: string -> bool, startHr: int) returns (handled: Handled)
      requires Valid()
      modifies this, factory
      ensures Valid()
      ensures (Model(), handled) == Handle(build, old(Model()), body, isDirectory, startHr)
    {
      if body.Unparsable? {
        return Threw(Throw(InvalidRequest, ParseFailed));
      } else if body.BodyNotObject? || AsString(body.command).None? {
        return Threw(JsonLogicError);
      }
      var command := AsString(body.command).value;
      if command == "IS_INITIALIZED" {
        if Rank(status) > Rank(Initializing) {
          handled := Done("");
        } else {
          handled := Threw(Throw(InitializationError, initErrMsg));
        }
      } else if command == "SHUTDOWN" {
        handled := Shutdown();
      } else if command == "CREATE_SNAPSHOT" {
        handled := Admit(body.data, isDirectory, startHr);
      } else {
        handled := Threw(Throw(InvalidRequest, "'command' key not found or not supported '" + command + "'"));
      }
    }

    /** SHUTDOWN: give up the device, the iterator and the imaging factory and stop
        listening. */
    method Shutdown() returns (handled: Handled)
      requires Valid()
      modifies this, factory
      ensures Valid()
      ensures (Model(), handled) == ShutdownStep(old(Model()))
    {
      if device {
        cancels := cancels + 1;
        device := false;
      }
      deviceIterator := false;
      var _ := factory.UnInitialize();
      listening := false;
      handled := Done("");
    }

    /** The capture worker has returned: stop the capture, return to IDLE and answer. */
    method CaptureReturned(filepath: string, err: string) returns (reply: Reply)
      requires Valid()
      modifies this
      ensures Valid()
      ensures (Model(), reply) == Complete(build, old(Model()), filepath, err)
    {
      if pending == 0 {
        return Silent;
      }
      if !device {
        return Crash;
      }
      stops := stops + 1;
      pending := pending - 1;
      status := Idle;
      if err != "" {
        reply := HandleError(Throw(CaptureError, err));
      } else {
        reply := Http(200, MakeResponse(ResultOk, filepath, 0, ""));
      }
    }

    method Respond(handled: Handled) returns (reply: Reply)
      requires Valid()
      modifies this
      ensures Valid()
      ensures (Model(), reply) == Answer(build, old(Model()), handled)
    {
      match handled
      case Done(filepath) =>
        reply := Http(200, MakeResponse(ResultOk, filepath, 0, ""));
      case Threw(e) =>
        reply := HandleError(e);
      case Admitted =>
        reply := Awaiting;
      case NullDevice =>
        reply := Crash;
      case Terminated =>
        reply := Crash;
    }
  }
}

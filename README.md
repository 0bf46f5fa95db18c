# Snapshot server: a verified model

SnapShotCreator is a small HTTP server that takes still images from a Blackmagic
DeckLink capture card. At start-up it does the following:

- scans its command line (`-d` device, `-m` display mode, `-f` pixel format, `-p` port);
- initialises COM and a WIC imaging factory;
- selects the capture device by its position in the device iterator;
- negotiates a display mode and pixel format;
- probes for one video frame.

It then listens for JSON POST requests with three commands:

- `IS_INITIALIZED`;
- `SHUTDOWN`;
- `CREATE_SNAPSHOT`, which validates its parameters, starts the capture, waits for the capture worker and stops the capture.

Every exception a handler throws reaches one error handler. That handler maps the
exception's type and the current server status to an HTTP status, an error code
(900–999) and a new status.

The model has these modules:

| module | file | models |
|---|---|---|
| `Exceptions` | exceptions.dfy | the four exception classes and the type names the error handler tells them apart by |
| `CaptureStills` | capture_stills.dfy | the nine-entry pixel-format table and the four image formats |
| `Protocol` | protocol.dfy | the status enumeration and its numeric order, the error codes, `validate_request_params`, `make_response` and the error handler's table |
| `ImageWriter` | image_writer.dfy | output-path composition, the image-format to encoder table, the encode step sequence with its `bail` cleanup, and the imaging factory's `Initialize`/`UnInitialize` (a class over the global factory pointer) |
| `Startup` | startup.dfy | `atoi`, the argument loop, the device loop (a method), the mode and pixel-format negotiation and the whole start-up as a specification function |
| `Session` | session.dfy | the server state, the POST handler, the error handler, the response, the start-up's effect on the state, properties over sequences of events, and a `Server` class whose methods update main()'s shared variables and are proved against the step functions |

What the model treats as input:

- Every answer of the capture hardware, COM, WIC, the file system and the clock is a parameter: an HRESULT, an attribute, an oracle function or a timestamp string.
- A `CREATE_SNAPSHOT` request is two events. Admission covers the status checks, PROCESSING, parameter reading and validation, and StartCapture. Completion covers the worker's (filepath, err), StopCapture, IDLE and the answer. Other requests can arrive between the two, as they can on the HTTP server's worker threads.
- A call through a null device pointer is modelled as an explicit `Crash` reply. So is the `std::terminate` that follows when a snapshot's worker is assigned to the one shared capture thread (`SnapShotCreator/main.cpp:156`, `:467`) while an earlier request still waits to join it (`:471`).
- The session functions take a `Build`. `AsWritten` follows the code. `Corrected` applies the three corrections listed under "## Findings", and the corrected lemmas are stated for it.

How a failed start-up ends depends on where it fails:

- A failure of COM, the imaging factory or the device iterator (`SnapShotCreator/main.cpp:182-192`) is thrown before the command line is read, so the port is still -1 (`SnapShotCreator/main.cpp:148`). The server then calls `listen` on port -1, which cannot be bound, and never answers.
- A missing device index is thrown as an InitializationError before the port is checked (`SnapShotCreator/main.cpp:209-212`). The server then listens in INITIALIZATION_ERROR on the `-p` value, whatever it is, when that value is a port number that can be bound.
- A port outside 2000–65535 after a valid device index ends the process before it listens (`SnapShotCreator/main.cpp:212-216`).
- Every later failure is thrown after the port check, and the server listens in INITIALIZATION_ERROR on the accepted port.

## Model

| member | source | states |
|---|---|---|
| Exceptions.Raise | SnapShotCreator/exceptions.h:5-46 | an exception of each class carries exactly the message it was constructed with as what() |
| Exceptions.TypeName | SnapShotCreator/main.cpp:498-548 | the type name the error handler compares against is "class " followed by the class name |
| Exceptions.KindOf | SnapShotCreator/main.cpp:498-548 | a type name is recognised as a class only when it is that class's type name |
| Exceptions.KindOfTypeName | SnapShotCreator/exceptions.h:5-46 | every class's type name is recognised as that class |
| Exceptions.TypeNamesDistinct | SnapShotCreator/exceptions.h:5-46 | the four classes are distinct, so their type names are pairwise different (both directions) |
| CaptureStills.PixelFormatTable | SnapShotCreator/CaptureStills.h:10-25 | nine entries with pairwise distinct values; entry 0 is 8-bit YUV; entry 3 is 8-bit BGRA and is the only BGRA entry |
| CaptureStills.ImageFormatTable | SnapShotCreator/CaptureStills.h:28-33 | the image formats are exactly bmp, png, tiff, jpeg in that order, without duplicates, and "" is not one of them |
| CaptureStills.Find | SnapShotCreator/main.cpp:111 | the search returns the first position of the value, or -1 (the end iterator) exactly when it does not occur |
| Protocol.Rank | SnapShotCreator/main.cpp:22-27 | the statuses' numeric values lie in -1..2 |
| Protocol.RankOrder | SnapShotCreator/main.cpp:22-27 | INITIALIZATION_ERROR = -1 < INITIALIZING = 0 < IDLE = 1 < PROCESSING = 2; above INITIALIZING exactly IDLE and PROCESSING, below IDLE exactly the two start-up statuses, above IDLE only PROCESSING |
| Protocol.RankInjective | SnapShotCreator/main.cpp:22-27 | two statuses have equal numeric values exactly when they are the same status |
| Protocol.ValidateRequestParams | SnapShotCreator/main.cpp:88-115 | returns normally iff the directory is set and is a directory, the prefix is set and the format is supported; otherwise throws InvalidParams with the message of the first failing check, in the order directory, prefix, format |
| Protocol.MakeResponse | SnapShotCreator/main.cpp:117-140 | "response" is the result; an OK body has a "filepath" key iff the path is non-empty and never a code or message; any other body has exactly "code" and "message" with the given values |
| Protocol.ReadMakeResponse | SnapShotCreator/main.cpp:117-140 | a client reads back the file path (or none) from an OK response and exactly the code and message from an NG one |
| Protocol.ErrorTable | SnapShotCreator/main.cpp:493-558 | the error handler's table from exception type name, message and status to HTTP status, code, message and next status; stated by ErrorTableClasses and the reply lemmas below |
| Protocol.ErrorTableClasses | SnapShotCreator/main.cpp:493-558 | codes 900–901 iff InitializationError, 910–912 iff InvalidParams or CaptureError, 990 iff InvalidRequest or no type, 999 iff an unknown type; HTTP 200 iff one of the two warnings; the next status is the old one or IDLE, and is the old one iff InitializationError, CaptureError while PROCESSING, or already IDLE |
| Protocol.InitializationErrorReply | SnapShotCreator/main.cpp:498-513 | an initialization error keeps the status: code 900 with the bare message while INITIALIZING, otherwise 901 with the "InitializationError: " prefix |
| Protocol.CaptureErrorReply | SnapShotCreator/main.cpp:522-538 | a capture error while PROCESSING is the HTTP 200 warning 910 and keeps PROCESSING; otherwise it is HTTP 500, code 912, the "CaptureError: " prefix and IDLE |
| Protocol.InvalidParamsReply | SnapShotCreator/main.cpp:514-521 | invalid parameters are HTTP 400, code 911, the "InvalidParams: " prefix and IDLE from every status |
| Protocol.InvalidRequestReply | SnapShotCreator/main.cpp:539-547 | a malformed request is HTTP 400, code 990, the "InvalidRequest: " prefix and IDLE from every status |
| Protocol.RequestErrorsResetToIdle | SnapShotCreator/main.cpp:539-556 | InvalidRequest, no type or an unknown type set IDLE from every status, INITIALIZATION_ERROR included; 990 with "InvalidRequest: " and the message, or "URL error" without a type; 999 "Unknown error" for an unknown type |
| Protocol.ErrorTableAfterStartup | SnapShotCreator/main.cpp:493-558 | outside INITIALIZING the handler never yields INITIALIZING and never sends code 900 |
| ImageWriter.GetFilepath | SnapShotCreator/ImageWriterWin.cpp:63-69 | the output path; its layout and injectivity are stated by GetFilepathParts and GetFilepathInjective |
| ImageWriter.GetFilepathParts | SnapShotCreator/ImageWriterWin.cpp:63-69 | the path is the directory, a backslash, the prefix, the timestamp, a dot and the extension; the timestamp can be read back from it; with a 14-digit timestamp the path is 16 characters longer than its other parts |
| ImageWriter.GetFilepathInjective | SnapShotCreator/ImageWriterWin.cpp:63-69 | snapshots taken at different timestamps get different paths |
| ImageWriter.EncoderFor | SnapShotCreator/ImageWriterWin.cpp:106-128 | there is an encoder exactly for the four supported image formats |
| ImageWriter.EncoderTable | SnapShotCreator/ImageWriterWin.cpp:106-128 | bmp is 32bppBGR, png and tiff are 32bppBGRA, jpeg is 24bppBGR, and the four formats use four distinct containers |
| ImageWriter.RunFrom | SnapShotCreator/ImageWriterWin.cpp:98-163 | the encode steps from a position on, stopping at the first failure; stated by RunFromResult, RunFromTracksHandles and RunSucceededInvokesAll |
| ImageWriter.Cleanup | SnapShotCreator/ImageWriterWin.cpp:165-175 | the `bail` releases; stated by CleanupReleasesEachOnce |
| ImageWriter.WriteSpec | SnapShotCreator/ImageWriterWin.cpp:71-176 | the whole write as result, calls made and releases; stated by WriteReleasesWhatItCreates, WriteStopsAtFirstFailure and WriteSuccessReleasesAll |
| ImageWriter.RunFromResult | SnapShotCreator/ImageWriterWin.cpp:98-163 | the steps run in their fixed order up to the first that fails; every earlier step succeeded; the result is the last step's HRESULT |
| ImageWriter.RunFromTracksHandles | SnapShotCreator/ImageWriterWin.cpp:98-163 | after any run, a handle is held exactly when the step that creates it was invoked and succeeded |
| ImageWriter.CleanupReleasesEachOnce | SnapShotCreator/ImageWriterWin.cpp:165-175 | the cleanup releases each held handle exactly once and no handle that is not held |
| ImageWriter.WriteReleasesWhatItCreates | SnapShotCreator/ImageWriterWin.cpp:71-176 | on every exit path each handle is released exactly once if the step creating it was invoked and succeeded, and never otherwise |
| ImageWriter.WriteStopsAtFirstFailure | SnapShotCreator/ImageWriterWin.cpp:98-163 | a frame that is not 8-bit BGRA gives E_FAIL and one without bytes E_OUTOFMEMORY, with no call made and nothing released; otherwise the calls made are a prefix of the fixed step order, all but the last succeeded, the result is the last call's HRESULT, and a run that stops early failed |
| ImageWriter.RunSucceededInvokesAll | SnapShotCreator/ImageWriterWin.cpp:98-163 | a run that ends successfully made every step and every step succeeded |
| ImageWriter.WriteSuccessReleasesAll | SnapShotCreator/ImageWriterWin.cpp:157-175 | a successful write made all eleven calls and releases the frame, the encoder and the stream, in that order |
| ImageWriter.WritePixelsBufferSize | SnapShotCreator/ImageWriterWin.cpp:153-155 | when WritePixels is called, it is given the frame's height as line count, its row bytes as stride and height × rowBytes as buffer size |
| ImageWriter.WriteVideoFrameToImage | SnapShotCreator/ImageWriterWin.cpp:71-176 | the result, the calls made and the handles released are those of the write specification |
| ImageWriter.OpenEncoder | SnapShotCreator/ImageWriterWin.cpp:98-132 | steps 0–3 (stream, open, encoder, attach) agree with the run until one fails; on success the stream and the encoder are held and the run continues from step 4 |
| ImageWriter.PrepareFrame | SnapShotCreator/ImageWriterWin.cpp:134-150 | steps 4–7 (frame, initialise, size, pixel format) continue the run; on success the frame is held and the run continues from step 8 |
| ImageWriter.WriteFrame | SnapShotCreator/ImageWriterWin.cpp:153-163 | steps 8–10 (pixels, frame commit, encoder commit) finish the run, with all three handles held |
| ImageWriter.ReleaseHandles | SnapShotCreator/ImageWriterWin.cpp:165-175 | the releases are the frame, the encoder and the stream, each only if held |
| ImageWriter.Factory.constructor | SnapShotCreator/ImageWriterWin.cpp:38 | the global factory pointer starts null |
| ImageWriter.Factory.Initialize | SnapShotCreator/ImageWriterWin.cpp:41-51 | returns the creation HRESULT; the pointer holds a factory exactly when creation succeeded; a factory held before is leaked |
| ImageWriter.Factory.UnInitialize | SnapShotCreator/ImageWriterWin.cpp:53-61 | always S_OK; releases the factory once if there is one and leaves the pointer null |
| ImageWriter.Factory.UnInitializeTwice | SnapShotCreator/ImageWriterWin.cpp:53-61 | a second UnInitialize releases nothing and still returns S_OK |
| Startup.Atoi | SnapShotCreator/main.cpp:197 | C's atoi: white space, an optional sign and the longest digit prefix; stated by AtoiDigits and AtoiIntString |
| Startup.SkipSpacesSuffix | SnapShotCreator/main.cpp:197 | atoi's white-space skipping drops a prefix made only of white space and stops at the first other character |
| Startup.LeadingDigitsPrefix | SnapShotCreator/main.cpp:197 | atoi reads the longest prefix of digits |
| Startup.AtoiDigits | SnapShotCreator/main.cpp:197 | atoi reads a digit string, with or without a minus sign, as its value |
| Startup.AtoiIntString | SnapShotCreator/main.cpp:197 | atoi reads back the decimal rendering of every integer |
| Startup.SetOption | SnapShotCreator/main.cpp:196-206 | each of -d, -m, -f, -p sets its own flag and no other |
| Startup.ScanArgs | SnapShotCreator/main.cpp:194-207 | the flags the argument loop leaves, or none when an option has no value; stated by LaterOptionWins, OptionWithoutValue, ScanAllOptions and ScanDecimalOptions |
| Startup.ScanArguments | SnapShotCreator/main.cpp:194-207 | the argument loop computes the scan of the command line, or no result when an option has no value |
| Startup.ScanFromAppend | SnapShotCreator/main.cpp:194-207 | scanning a longer command line continues from where the shorter one stopped |
| Startup.LaterOptionWins | SnapShotCreator/main.cpp:194-207 | an option given again later overrides the earlier value |
| Startup.OptionWithoutValue | SnapShotCreator/main.cpp:194-207 | an option in last position has no defined result |
| Startup.ScanAllOptions | SnapShotCreator/main.cpp:194-207 | a command line with all four options yields exactly the values atoi reads from them |
| Startup.ScanDecimalOptions | SnapShotCreator/main.cpp:194-207 | options written as decimal numbers yield those numbers |
| Startup.CheckDevice | SnapShotCreator/main.cpp:232-247 | the device at the index is selected iff its attributes can be queried and it supports capture; format detection iff the flag reads S_OK and true |
| Startup.NamesOf | SnapShotCreator/main.cpp:224-229 | the collected names are the readable names of the visited devices, no more of them than devices |
| Startup.NamesOfAppend | SnapShotCreator/main.cpp:220-229 | the names of two runs of devices are the names of the first followed by the names of the second, so the names keep the devices' order |
| Startup.NamesComplete | SnapShotCreator/main.cpp:224-229 | every device whose name can be read contributes its name |
| Startup.PickDevice | SnapShotCreator/main.cpp:232-247 | the device the loop selects and its format-detection flag, or none; stated by SelectionOutcome |
| Startup.Visited | SnapShotCreator/main.cpp:220-259 | the number of devices the loop visits, never more than there are devices |
| Startup.SelectDevice | SnapShotCreator/main.cpp:220-259 | the device loop selects the device the index names (subject to its checks) and collects the names of the devices visited, stopping at a refused device |
| Startup.SelectionOutcome | SnapShotCreator/main.cpp:220-263 | a device is selected iff the index names one that passes its checks; none is selected iff the index is out of range; unless refused, every device is visited |
| Startup.NegotiateAgreed | SnapShotCreator/main.cpp:265-317 | the negotiation agrees exactly when the settings are valid: input init succeeded, the mode index is in [-1, modes), -1 with format detection, otherwise a pixel index in [0, 9) whose pair the device supports |
| Startup.Negotiate | SnapShotCreator/main.cpp:265-317 | agreement requires a successful input init and a mode index in [-1, modes); -1 needs format detection and forces NTSC with pixel index 0; otherwise the pixel index is in [0, 9) and the device supports the pair |
| Startup.BootSpec | SnapShotCreator/main.cpp:179-347 | the start-up's outcome; stated by BootedIff, BootedConfig and FailedBootPort |
| Startup.BootedIff | SnapShotCreator/main.cpp:179-347 | the start-up succeeds iff every platform call succeeds, the device index is non-negative, the port is in range, the device is selected, the settings are valid for it and the probe sees a frame; a negative index fails with "You must select a device" |
| Startup.FailedBootPort | SnapShotCreator/main.cpp:148-216 | a failed start-up carries port -1 when COM, the factory or the iterator failed, and the `-p` value otherwise; that value is in 2000–65535 whenever the device index was given |
| Startup.BootedConfig | SnapShotCreator/main.cpp:209-317 | a successful start-up's configuration obeys the negotiation rules for the device at the index |
| Session.AdmitStep | SnapShotCreator/main.cpp:428-464 | the CREATE_SNAPSHOT admission; stated by AdmissionOnlyFromIdle, AdmitStatus, ValidSnapshotHandled, AdmitStartsCapture and AdmitKeepsCaptureBalance |
| Session.StartStep | SnapShotCreator/main.cpp:461-467 | StartCapture, its failure, and the worker's assignment to the capture thread, which terminates the process while an earlier worker is unjoined; stated by ValidSnapshotHandled, AdmitStartsCapture, StartFailureStuck, StartFailureRecovers and BadRequestReopensAdmission |
| Session.Handle | SnapShotCreator/main.cpp:386-488 | the POST handler's dispatch; stated by HandleStatus, HandleKeepsCaptureBalance and HandleBeforeIdle |
| Session.FinishStep | SnapShotCreator/main.cpp:472-483 | the worker's return; stated by WorkerErrorEndsIdle and WorkerSuccessEndsIdle |
| Session.NextStatus | SnapShotCreator/main.cpp:493-558 | the status the error handler leaves: the table's, or in the corrected build the old one in INITIALIZATION_ERROR or while a capture runs; stated by AnswerChangesOnlyStatus, ErrorStateSticky and RunKeepsOneCapture |
| Session.Answer | SnapShotCreator/main.cpp:493-557 | the reply and the error handler's status change; stated by AnswerChangesOnlyStatus and AnswerAfterStartup |
| Session.Serve | SnapShotCreator/main.cpp:373-490 | one request; stated by IsInitializedReply, BusyRejected, NotReadyRejected and InvalidParamsEndIdle |
| Session.Complete | SnapShotCreator/main.cpp:472-483 | the completion of the oldest running capture; stated by WorkerErrorEndsIdle and WorkerSuccessEndsIdle |
| Session.Step | SnapShotCreator/main.cpp:373-558 | one event; stated by StepKeepsCaptureBalance, StepAfterStartup, StepKeepsInitError and StepKeepsOneCapture |
| Session.Run | SnapShotCreator/main.cpp:373-558 | a sequence of events; stated by RunKeepsCaptureBalance, RunAfterStartup, ErrorStateSticky and RunKeepsOneCapture |
| Session.Throw | SnapShotCreator/main.cpp:498-548 | a thrown exception is recognised by its class and carries its message |
| Session.ReadParams | SnapShotCreator/main.cpp:444-446 | a missing data member gives three empty parameters; reading fails iff data is not an object or a parameter is neither missing nor a string; otherwise the three strings read |
| Session.IsInitializedReply | SnapShotCreator/main.cpp:395-406 | IS_INITIALIZED never changes the state; OK iff IDLE or PROCESSING; otherwise the stored message, 900 while INITIALIZING, 901 with "InitializationError: " in INITIALIZATION_ERROR |
| Session.BusyRejected | SnapShotCreator/main.cpp:434-437 | a snapshot request while PROCESSING gets the 910 warning and changes nothing |
| Session.NotReadyRejected | SnapShotCreator/main.cpp:430-433 | a snapshot request below IDLE changes nothing and gets HTTP 200, 900 and the bare stored message while INITIALIZING, HTTP 500, 901 and "InitializationError: " with the stored message in INITIALIZATION_ERROR |
| Session.AdmissionOnlyFromIdle | SnapShotCreator/main.cpp:430-441 | a snapshot request leaves the server PROCESSING only if it was IDLE |
| Session.AdmitStatus | SnapShotCreator/main.cpp:428-464 | admission leaves the state unchanged or moves from IDLE to PROCESSING |
| Session.ValidSnapshotHandled | SnapShotCreator/main.cpp:441-471 | with valid parameters on an IDLE server the handler crashes through a null device, throws the capture error on a failed start, terminates when an earlier capture is still unjoined, or else leaves the started capture to the worker |
| Session.AdmitStartsCapture | SnapShotCreator/main.cpp:461-471 | a valid request whose capture starts leaves the server PROCESSING with one more capture started, awaiting its worker when no other capture was running and terminated otherwise |
| Session.InvalidParamsEndIdle | SnapShotCreator/main.cpp:441-459 | invalid parameters end in IDLE, state otherwise unchanged (no StartCapture), with HTTP 400, code 911 and the validation message; in the corrected build for an IDLE server without a running capture, the only IDLE state it reaches |
| Session.WorkerErrorEndsIdle | SnapShotCreator/main.cpp:472-482 | a worker error stops the capture once and ends in IDLE with code 912 and "CaptureError: " |
| Session.WorkerSuccessEndsIdle | SnapShotCreator/main.cpp:472-483 | a successful worker stops the capture once and ends in IDLE with OK and its file path |
| Session.StepKeepsCaptureBalance | SnapShotCreator/main.cpp:461-476 | every event keeps the successful StartCaptures equal to the StopCaptures plus the captures still running |
| Session.HandleKeepsCaptureBalance | SnapShotCreator/main.cpp:373-490 | the POST handler starts a capture exactly when it leaves one more running, and stops none |
| Session.AdmitKeepsCaptureBalance | SnapShotCreator/main.cpp:428-471 | admission starts a capture exactly when it leaves one more running, and stops none |
| Session.AnswerChangesOnlyStatus | SnapShotCreator/main.cpp:493-558 | answering (including the error handler) changes at most the status |
| Session.RunKeepsCaptureBalance | SnapShotCreator/main.cpp:461-476 | over any sequence of events each successful StartCapture is matched by one StopCapture or is still running |
| Session.StepAfterStartup | SnapShotCreator/main.cpp:498-505 | once the start-up has ended no event returns the server to INITIALIZING, and none sends code 900 |
| Session.HandleStatus | SnapShotCreator/main.cpp:373-490 | the POST handler keeps the status or sets PROCESSING |
| Session.AnswerAfterStartup | SnapShotCreator/main.cpp:493-558 | outside INITIALIZING no answer yields INITIALIZING or code 900 |
| Session.RunAfterStartup | SnapShotCreator/main.cpp:498-505 | the WARN_INITIALIZING branch is unreachable over any sequence of events after the start-up |
| Session.AfterBoot | SnapShotCreator/main.cpp:349-370 | the state main() leaves for the handlers; stated by ListeningAfterBoot and FailedBootListening |
| Session.ListeningAfterBoot | SnapShotCreator/main.cpp:349-370 | the server listens iff the start-up succeeded or failed with a port that can be bound; it is then never INITIALIZING; it is IDLE iff the start-up succeeded; every failure leaves INITIALIZATION_ERROR with the exception's message stored and the device, iterator and factory given up |
| Session.FailedBootListening | SnapShotCreator/main.cpp:182-216 | a COM, factory or iterator failure leaves the server in INITIALIZATION_ERROR and not listening; a missing device index leaves it in INITIALIZATION_ERROR and listening iff the `-p` value can be bound |
| Session.ShutdownDuringCaptureCrashes | SnapShotCreator/main.cpp:408-426 | SHUTDOWN while a capture runs stops listening and releases the device, so the running request's StopCapture goes through a null pointer |
| Session.BadRequestReopensAdmission | SnapShotCreator/main.cpp:539-547 | as written, an invalid request while PROCESSING sets IDLE, so a second snapshot calls StartCapture again while the first request waits to join, and the process then terminates at the thread assignment |
| Session.HandleKeepsOneCapture | SnapShotCreator/main.cpp:373-490 | corrected, the handler keeps at most one capture running, and PROCESSING while it runs |
| Session.StepKeepsOneCapture | SnapShotCreator/main.cpp:373-558 | corrected, every event keeps at most one capture running, and PROCESSING while it runs |
| Session.RunKeepsOneCapture | SnapShotCreator/main.cpp:373-558 | corrected, over any sequence of events at most one capture runs, and the server is PROCESSING while it runs |
| Session.BadRequestKeepsProcessing | SnapShotCreator/main.cpp:539-547 | corrected, a malformed request while a capture runs is answered HTTP 400, 990 and changes nothing, so the server stays PROCESSING |
| Session.StartFailureStuck | SnapShotCreator/main.cpp:462-464 | as written, a failed StartCapture is answered 910 and leaves PROCESSING, and every later snapshot request changes nothing |
| Session.SnapshotsWhileProcessing | SnapShotCreator/main.cpp:434-437 | in PROCESSING any sequence of snapshot requests leaves the state unchanged |
| Session.StartFailureRecovers | SnapShotCreator/main.cpp:462-464 | corrected, a failed StartCapture is answered HTTP 500 / 912 "CaptureError: failed to start capture" and leaves the server IDLE |
| Session.ErrorStateNotSticky | SnapShotCreator/main.cpp:539-547 | as written, one unknown-URL request takes a failed server to IDLE, and a valid snapshot request then crashes through the null device |
| Session.StepKeepsInitError | SnapShotCreator/main.cpp:430-433 | corrected, every event keeps INITIALIZATION_ERROR without a device and never crashes; snapshot requests get 901 |
| Session.HandleBeforeIdle | SnapShotCreator/main.cpp:373-490 | below IDLE the handler keeps the status, starts nothing and never reaches the device |
| Session.ErrorStateSticky | SnapShotCreator/main.cpp:493-558 | corrected, INITIALIZATION_ERROR is kept over any sequence of events |
| Session.Server.constructor | SnapShotCreator/main.cpp:143-168 | the shared variables start INITIALIZING with "initializing", no device, iterator or factory, not listening |
| Session.Server.Boot | SnapShotCreator/main.cpp:179-370 | the start-up leaves exactly the state the boot specification and its cleanup describe |
| Session.Server.Record | SnapShotCreator/main.cpp:349-370 | on failure the catch block sets INITIALIZATION_ERROR and the message, cancels and releases the device and releases the iterator and factory; on success IDLE with the configuration |
| Session.Server.Attempt | SnapShotCreator/main.cpp:182-347 | the try block's checks in order give the boot specification's outcome; the factory is held iff COM and the factory creation succeeded |
| Session.Server.HandleError | SnapShotCreator/main.cpp:493-558 | the error handler sets the status and answers as the table says |
| Session.Server.Admit | SnapShotCreator/main.cpp:428-437 | the CREATE_SNAPSHOT branch behaves as the admission specification |
| Session.Server.AdmitIdle | SnapShotCreator/main.cpp:441-459 | from IDLE: PROCESSING, then parameters, validation and start as the admission specification |
| Session.Server.StartCapture | SnapShotCreator/main.cpp:461-467 | starting the capture and assigning its worker behave as the start specification, including the termination while an earlier worker is unjoined |
| Session.Server.HandlePost | SnapShotCreator/main.cpp:373-490 | serving one request updates the shared variables and replies as the serve specification |
| Session.Server.Dispatch | SnapShotCreator/main.cpp:386-488 | parsing and dispatching on the command behave as the handler specification |
| Session.Server.Shutdown | SnapShotCreator/main.cpp:408-426 | SHUTDOWN cancels and releases the device, releases the iterator and factory and stops listening |
| Session.Server.CaptureReturned | SnapShotCreator/main.cpp:472-483 | the worker's return stops the capture, sets IDLE and answers as the completion specification |
| Session.Server.Respond | SnapShotCreator/main.cpp:493-557 | the reply is OK, the error handler's NG answer, nothing yet, or a crash (a null device or a terminated process), as the answer specification |

## Left out

- HTTP transport and JSON text: the model takes a parsed request (`Body`, `Field`) and answers with a response record. Serialising JSON, the HTTP server, `listen`, `stop` and the request logger are not part of this model.
- The exception-to-error-handler channel: the HTTP library hands the exception's type name and what() text to the error handler. The model passes them directly.
- A null JSON document reads as an empty object, which the model takes as given from the JSON library.
- Logging: `dump_headers`, `dump_req_and_res`, every log call, and the device-name list, which is used only for the usage text. `SelectDevice` still computes the name list.
- `CaptureStills::DisplayUsage` prints usage text and is not modelled.
- `CoInitializeEx` is kept only as its HRESULT. `CoUninitialize` has no state in the model.
- The capture worker `CaptureStills::CreateSnapshot` is not part of this model. The header's declaration does not match its call, so it is taken as an opaque step that yields (filepath, err). The worker thread is spawned and joined at once; this is the admit/complete split.
- Concurrency: requests on the HTTP server's worker threads are interleaved events, one at a time. Data races on the shared variables are not modelled.
- The clock: `GetFilepath` takes the timestamp as a parameter.
- `IsPathDirectory` is the parameter `isDirectory`.
- The DeckLink SDK: every call is an input (HRESULTs, attributes, `supports`, `probeStartHr`, `frameArrives`, `startHr`). Probe captures at start-up are not counted in the snapshot StartCapture/StopCapture counts.
- Integer widths: `atoi` overflow (undefined in C) and a height × rowBytes product beyond 32 bits are not modelled; the model's integers are unbounded.
- An option in last position makes `atoi` read argv's null terminator, which is undefined behaviour. The scan yields no result there, and the start-up requires a scan with a result. This requirement also covers the COM, imaging-factory and iterator failures, which happen before the command line is read.
- Session.Server.Boot: an exception in the device loop after a device object was created leaks that device; the model records only that it was given up.
- ImageWriter.WriteVideoFrameToImage: requires a supported image format. Callers validate the format first, and for any other format the source would call through a null encoder pointer.
- ImageWriter.PrepareFrame: `SetPixelFormat` may change the requested pixel format in place, and the model does not track that change.
- Protocol.MakeResponse: an OK response without a file path has a null body in the source; the model gives it an empty member map.
- The pixel-format table's values are an enumeration, not the SDK's four-character codes. The image formats' encoders are names, not WIC GUIDs.

## Findings

| source | as written | input that shows it | evidently intended | confidence | as-written member | corrected member |
|---|---|---|---|---|---|---|
| SnapShotCreator/main.cpp:462-464 | a failed StartCapture throws CaptureError after the status is already PROCESSING, so the error handler answers the 910 "busy" warning and keeps PROCESSING with no capture running | an IDLE server with a device, valid parameters, StartCapture returning a failure; every later CREATE_SNAPSHOT gets 910 | the server returns to IDLE and reports a capture failure (912) | not executed | Session.StartFailureStuck | Session.StartFailureRecovers |
| SnapShotCreator/main.cpp:539-556 | InvalidRequest, a URL error and unknown exceptions set IDLE even in INITIALIZATION_ERROR, where no device exists | a server whose start-up failed receives a request for an unknown URL, then a valid CREATE_SNAPSHOT: StartCapture is called through the null device | INITIALIZATION_ERROR is kept by every error, so snapshot requests keep getting 901 | not executed | Session.ErrorStateNotSticky | Session.ErrorStateSticky |
| SnapShotCreator/main.cpp:539-547 | an InvalidRequest (or a URL error) while PROCESSING sets IDLE although the admitted capture is still running | a malformed request body while a CREATE_SNAPSHOT is waiting for its worker, then a valid CREATE_SNAPSHOT: a second StartCapture is made, and assigning its worker to the still-joinable capture thread (main.cpp:467) terminates the process | PROCESSING is kept by every error while a capture runs, so at most one capture runs | not executed | Session.BadRequestReopensAdmission | Session.RunKeepsOneCapture |

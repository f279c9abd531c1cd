/** The React component client/src/CameraFeed.js as one session object: the
    camera stream and its facing mode, the status line, and the state of the
    request that sends a captured frame to the server. Each `async` handler is
    split at its `await` into a Begin and a Complete method, so that other
    handlers may run in between, as they can in the browser; what the awaited
    platform call produced (`getUserMedia`, `fetch` with `response.json()`) is
    a parameter of the Complete method. */
module CameraFeed {
  import opened Json
  import opened Wrappers
  import opened Text

  /** A `MediaStream` handle. */
  type StreamId = nat

  datatype StatusKind = Info | Success | Error

  /** The status line `{message, type}`. The message is a JSON value because
      the component shows the server's `error` field, whatever it holds. */
  datatype Status = Status(message: Json, kind: StatusKind)

  const InitialMessage := "Click \"Start Camera\" to begin."
  const RequestingMessage := "Requesting camera access..."
  const StartedMessage := "Camera started successfully!"
  const StoppedMessage := "Camera stopped."
  const ProcessingMessage := "Processing image..."
  const ProcessedMessage := "Image processed successfully!"

  // The longer messages are written in pieces only so that the verifier can
  // read single characters of them cheaply.
  const FailurePrefix := "Failed to access camera. "
  const DeniedReason := "Camera access was denied. " + "Please allow camera access and try again."
  const NoCameraReason := "No camera found on this device."
  const UnsupportedReason := "Camera access is not supported " + "in this browser."
  const UnknownReason := "Unknown error occurred."

  const NoSupportMessage := "Camera access is not supported in this browser. " +
    "Please use a modern browser like Chrome, Firefox, or Safari."

  const ConnectError := "Failed to connect to processing server. " + "Make sure the server is running."
  const ProcessFallback := "Failed to process image"

  const ProcessUrl := "http://localhost:5000/process-image"

  /** What `getUserMedia` produced: a stream, or an error with its `name` and
      `message`. */
  datatype Acquisition = Acquired(stream: StreamId) | Refused(name: string, message: string)

  /** The constraints passed to `getUserMedia` (lines 36-43). */
  datatype Constraints = Constraints(facingMode: string, idealWidth: int, idealHeight: int, audio: bool)

  /** The POST the component sends: its URL and JSON body (lines 121-131). */
  datatype ProcessRequest = ProcessRequest(url: string, image: string, language: string, context: string)

  /** What `fetch(...)` followed by `response.json()` produced: the parsed
      body (whatever the HTTP status), or a rejection (no connection, or a body
      that is not JSON). */
  datatype Fetched = Received(data: Json) | Unreachable

  /** Line 89: the facing mode `switchCamera` asks for. */
  function Opposite(mode: string): (r: string)
    ensures r == "user" || r == "environment"
    ensures r == "environment" <==> mode == "user"
  {
    if mode == "user" then "environment" else "user"
  }

  /** On the two modes the component uses, switching twice returns to the
      start and never asks for the mode already in use. */
  lemma OppositeFlips(mode: string)
    requires mode == "user" || mode == "environment"
    ensures Opposite(mode) != mode && Opposite(Opposite(mode)) == mode
  {
  }

  /** Lines 60-70: the status text for a failed `getUserMedia`. */
  function CameraErrorMessage(name: string, message: string): (r: string)
    ensures StartsWith(r, FailurePrefix) && |r| > |FailurePrefix|
    ensures name == "NotAllowedError" ==> r[|FailurePrefix|..] == DeniedReason
    ensures name == "NotFoundError" ==> r[|FailurePrefix|..] == NoCameraReason
    ensures name == "NotSupportedError" ==> r[|FailurePrefix|..] == UnsupportedReason
    ensures name != "NotAllowedError" && name != "NotFoundError" && name != "NotSupportedError" ==>
      r[|FailurePrefix|..] == if message != "" then message else UnknownReason
  {
    var reason :=
      if name == "NotAllowedError" then DeniedReason
      else if name == "NotFoundError" then NoCameraReason
      else if name == "NotSupportedError" then UnsupportedReason
      else if message != "" then message
      else UnknownReason;
    assert reason != [] by {
      var d, n, u, k := DeniedReason, NoCameraReason, UnsupportedReason, UnknownReason;
      assert d[0] == 'C' && n[0] == 'N' && u[0] == 'C' && k[0] == 'U';
    }
    var r := FailurePrefix + reason;
    assert r[..|FailurePrefix|] == FailurePrefix && r[|FailurePrefix|..] == reason;
    r
  }

  /** JavaScript truthiness of a parsed JSON value: `null`, `false`, zero and
      the empty string are false; every array and object is true. */
  predicate JsTruthy(v: Json)
    ensures !JsTruthy(v) <==> v in {Null, Bool(false), Num(0), Str("")}
  {
    match v
    case Null => false
    case Bool(b) => b
    case Num(n) => n != 0
    case Str(s) => s != ""
    case Arr(_) => true
    case Obj(_) => true
  }

  /** `data.key` on a parsed value other than `null`: the member of an object;
      `undefined` (here `Null`) when there is none or `data` is no object. */
  function Member(data: Json, key: string): (v: Json)
    ensures data.Obj? && key in data.fields ==> v == data.fields[key]
    ensures v != Null ==> data.Obj? && key in data.fields
  {
    if data.Obj? && key in data.fields then data.fields[key] else Null
  }

  /** The state `processImage` leaves after its `await`. */
  datatype Resolution = Resolution(processedResult: Json, processingError: Json, status: Status)

  /** Lines 133-148: what a finished request does to the result, the error and
      the status line. `data.success` on `null` throws, which the `catch` turns
      into the connection error. */
  function Resolve(outcome: Fetched): (r: Resolution)
    ensures r.status.kind == Success <==>
      outcome.Received? && !outcome.data.Null? && JsTruthy(Member(outcome.data, "success"))
    ensures r.status.kind == Success ==>
      r.processedResult == Member(outcome.data, "result") && r.processingError == Null &&
      r.status.message == Str(ProcessedMessage)
    ensures r.status.kind != Success ==>
      r.status.kind == Error && r.processedResult == Null &&
      r.processingError == r.status.message && JsTruthy(r.processingError)
    ensures outcome.Unreachable? || outcome.data.Null? ==> r.processingError == Str(ConnectError)
    ensures outcome.Received? && !outcome.data.Null? && !JsTruthy(Member(outcome.data, "success")) ==>
      var e := Member(outcome.data, "error");
      r.processingError == if JsTruthy(e) then e else Str(ProcessFallback)
  {
    var failure := Str(ConnectError);
    match outcome
    case Unreachable => Resolution(Null, failure, Status(failure, Error))
    case Received(data) =>
      if data.Null? then Resolution(Null, failure, Status(failure, Error))
      else if JsTruthy(Member(data, "success")) then
        Resolution(Member(data, "result"), Null, Status(Str(ProcessedMessage), Success))
      else
        var e := Member(data, "error");
        var error := if JsTruthy(e) then e else Str(ProcessFallback);
        assert JsTruthy(Str(ProcessFallback)) by {
          var f := ProcessFallback;
          assert f[0] == 'F';
        }
        Resolution(Null, error, Status(error, Error))
  }

  /** The stream held, as a set. */
  function Held(stream: Option<StreamId>): set<StreamId> {
    if stream.Some? then {stream.value} else {}
  }

  class CaptureSession {
    var currentStream: Option<StreamId>
    var currentFacingMode: string
    var status: Status
    var isStarted: bool
    var isProcessing: bool
    var result: Json
    var capturedImage: Option<string>
    var language: string
    var context: string
    var processingError: Json
    var processedResult: Json
    /** The streams whose tracks have been stopped: the platform's side of
        `track.stop()`, kept so that the contracts can speak of it. */
    ghost var stopped: set<StreamId>

    /** The component is started exactly when it holds a stream. */
    ghost predicate Valid()
      reads this
    {
      isStarted == currentStream.Some?
    }

    /** The stream held is one whose tracks still run. */
    ghost predicate Live()
      reads this
    {
      currentStream.Some? && currentStream.value !in stopped
    }

    /** Lines 5-17: the initial state of every `useState`. */
    constructor ()
      ensures Valid()
      ensures currentStream == None && currentFacingMode == "user" && !isStarted && !isProcessing
      ensures status == Status(Str(InitialMessage), Info)
      ensures result == Null && capturedImage == None && processingError == Null && processedResult == Null
      ensures language == "English" && context == "describe" && stopped == {}
    {
      currentStream := None;
      currentFacingMode := "user";
      status := Status(Str(InitialMessage), Info);
      isStarted := false;
      isProcessing := false;
      result := Null;
      capturedImage := None;
      language := "English";
      context := "describe";
      processingError := Null;
      processedResult := Null;
      stopped := {};
    }

    /** Lines 19-21. */
    method ShowStatus(message: string, kind: StatusKind)
      modifies this`status
      ensures status == Status(Str(message), kind)
    {
      status := Status(Str(message), kind);
    }

    /** Lines 23-25. */
    method ShowError(message: Json)
      modifies this`status
      ensures status == Status(message, Error)
    {
      status := Status(message, Error);
    }

    /** Lines 155-158: the effect run after mounting (and again whenever the
        stream changes) reports a browser without `getUserMedia`. */
    method CheckSupport(mediaDevicesAvailable: bool)
      modifies this`status
      ensures !mediaDevicesAvailable ==> status == Status(Str(NoSupportMessage), Error)
      ensures mediaDevicesAvailable ==> status == old(status)
    {
      if !mediaDevicesAvailable {
        ShowError(Str(NoSupportMessage));
      }
    }

    /** Lines 27-45 up to the `await`: announce the request, stop the tracks of
        the stream held (which stays held), ask for a new stream. */
    method StartCameraBegin(facingMode: string) returns (constraints: Constraints)
      modifies this`status, this`stopped
      ensures status == Status(Str(RequestingMessage), Info)
      ensures stopped == old(stopped) + Held(currentStream)
      ensures constraints == Constraints(facingMode, 1280, 720, false)
    {
      ShowStatus(RequestingMessage, Info);
      if currentStream.Some? {
        stopped := stopped + {currentStream.value};
      }
      constraints := Constraints(facingMode, 1280, 720, false);
    }

    /** Lines 45-73 after the `await`: keep the new stream, or report why there
        is none and leave the stream, the mode and the started flag as they were. */
    method StartCameraComplete(facingMode: string, outcome: Acquisition)
      requires Valid()
      modifies this`currentStream, this`currentFacingMode, this`isStarted, this`status
      ensures Valid()
      ensures outcome.Acquired? ==>
        currentStream == Some(outcome.stream) && currentFacingMode == facingMode && isStarted &&
        status == Status(Str(StartedMessage), Success)
      ensures outcome.Refused? ==>
        currentStream == old(currentStream) && currentFacingMode == old(currentFacingMode) &&
        isStarted == old(isStarted) &&
        status == Status(Str(CameraErrorMessage(outcome.name, outcome.message)), Error)
    {
      match outcome {
        case Acquired(stream) =>
          currentStream := Some(stream);
          currentFacingMode := facingMode;
          isStarted := true;
          ShowStatus(StartedMessage, Success);
        case Refused(name, message) =>
          ShowError(Str(CameraErrorMessage(name, message)));
      }
    }

    /** `startCamera(facingMode)` run to completion. A refusal after a stream
        was held leaves the component started with a stream whose tracks are
        stopped. */
    method StartCamera(facingMode: string, outcome: Acquisition) returns (constraints: Constraints)
      requires Valid()
      modifies this`currentStream, this`currentFacingMode, this`isStarted, this`status, this`stopped
      ensures Valid()
      ensures constraints == Constraints(facingMode, 1280, 720, false)
      ensures stopped == old(stopped) + Held(old(currentStream))
      ensures outcome.Acquired? ==>
        currentStream == Some(outcome.stream) && currentFacingMode == facingMode && isStarted &&
        status == Status(Str(StartedMessage), Success)
      ensures outcome.Refused? ==>
        currentStream == old(currentStream) && currentFacingMode == old(currentFacingMode) &&
        isStarted == old(isStarted) &&
        status == Status(Str(CameraErrorMessage(outcome.name, outcome.message)), Error)
      ensures outcome.Refused? && old(currentStream).Some? ==> isStarted && !Live()
    {
      constraints := StartCameraBegin(facingMode);
      StartCameraComplete(facingMode, outcome);
    }

    /** Lines 76-86: with a stream, stop it and forget it; without one, nothing. */
    method StopCamera()
      requires Valid()
      modifies this`currentStream, this`isStarted, this`status, this`stopped
      ensures Valid()
      ensures old(currentStream).None? ==>
        currentStream == None && !isStarted && status == old(status) && stopped == old(stopped)
      ensures old(currentStream).Some? ==>
        currentStream == None && !isStarted && status == Status(Str(StoppedMessage), Info) &&
        stopped == old(stopped) + {old(currentStream).value}
    {
      if currentStream.Some? {
        stopped := stopped + {currentStream.value};
        currentStream := None;
        isStarted := false;
        ShowStatus(StoppedMessage, Info);
      }
    }

    /** Lines 88-91: restart with the other camera. As for any start, a
        refusal leaves the session started with the old, now stopped, stream. */
    method SwitchCamera(outcome: Acquisition) returns (constraints: Constraints)
      requires Valid()
      modifies this`currentStream, this`currentFacingMode, this`isStarted, this`status, this`stopped
      ensures Valid()
      ensures constraints == Constraints(Opposite(old(currentFacingMode)), 1280, 720, false)
      ensures stopped == old(stopped) + Held(old(currentStream))
      ensures outcome.Acquired? ==>
        currentStream == Some(outcome.stream) && currentFacingMode == Opposite(old(currentFacingMode)) &&
        isStarted && status == Status(Str(StartedMessage), Success)
      ensures outcome.Refused? ==>
        currentStream == old(currentStream) && currentFacingMode == old(currentFacingMode) &&
        isStarted == old(isStarted) &&
        status == Status(Str(CameraErrorMessage(outcome.name, outcome.message)), Error)
      ensures outcome.Refused? && old(currentStream).Some? ==> isStarted && !Live()
    {
      var mode := Opposite(currentFacingMode);
      constraints := StartCamera(mode, outcome);
    }

    /** Line 171: the Start/Stop button starts the front camera when not
        started and stops the camera otherwise. */
    method PressStartStop(outcome: Acquisition) returns (constraints: Option<Constraints>)
      requires Valid()
      modifies this`currentStream, this`currentFacingMode, this`isStarted, this`status, this`stopped
      ensures Valid()
      ensures old(isStarted) ==>
        constraints.None? && currentStream == None && !isStarted &&
        currentFacingMode == old(currentFacingMode) && status == Status(Str(StoppedMessage), Info) &&
        stopped == old(stopped) + Held(old(currentStream)) && old(currentStream).Some?
      ensures !old(isStarted) ==>
        constraints == Some(Constraints("user", 1280, 720, false)) && stopped == old(stopped)
      ensures !old(isStarted) && outcome.Acquired? ==>
        currentStream == Some(outcome.stream) && isStarted && currentFacingMode == "user" &&
        status == Status(Str(StartedMessage), Success)
      ensures !old(isStarted) && outcome.Refused? ==>
        currentStream == None && !isStarted && currentFacingMode == old(currentFacingMode) &&
        status == Status(Str(CameraErrorMessage(outcome.name, outcome.message)), Error)
    {
      if !isStarted {
        var c := StartCamera("user", outcome);
        constraints := Some(c);
      } else {
        StopCamera();
        constraints := None;
      }
    }

    /** Lines 115-131 up to the `await`: mark the request as running, clear the
        result, announce it and send the frame with the chosen language and
        context. */
    method ProcessImageBegin(imageDataUrl: string) returns (request: ProcessRequest)
      modifies this`isProcessing, this`result, this`status
      ensures isProcessing && result == Null && status == Status(Str(ProcessingMessage), Info)
      ensures request == ProcessRequest(ProcessUrl, imageDataUrl, language, context)
    {
      isProcessing := true;
      result := Null;
      ShowStatus(ProcessingMessage, Info);
      request := ProcessRequest(ProcessUrl, imageDataUrl, language, context);
    }

    /** Lines 133-151 after the `await`: record the result or the error, and in
        every case (the `finally`) clear the processing flag. */
    method ProcessImageComplete(outcome: Fetched)
      modifies this`processedResult, this`processingError, this`status, this`isProcessing
      ensures !isProcessing
      ensures Resolution(processedResult, processingError, status) == Resolve(outcome)
    {
      match outcome {
        case Unreachable =>
          processingError := Str(ConnectError);
          processedResult := Null;
          ShowError(Str(ConnectError));
        case Received(data) =>
          if data.Null? {
            // `data.success` throws a TypeError, caught below line 144
            processingError := Str(ConnectError);
            processedResult := Null;
            ShowError(Str(ConnectError));
          } else if JsTruthy(Member(data, "success")) {
            processedResult := Member(data, "result");
            processingError := Null;
            ShowStatus(ProcessedMessage, Success);
          } else {
            var e := Member(data, "error");
            processingError := if JsTruthy(e) then e else Str(ProcessFallback);
            processedResult := Null;
            ShowError(if JsTruthy(e) then e else Str(ProcessFallback));
          }
      }
      isProcessing := false;
    }

    /** `processImage(imageDataUrl)` run to completion. */
    method ProcessImage(imageDataUrl: string, outcome: Fetched) returns (request: ProcessRequest)
      modifies this`isProcessing, this`result, this`status, this`processedResult, this`processingError
      ensures request == ProcessRequest(ProcessUrl, imageDataUrl, language, context)
      ensures !isProcessing && result == Null
      ensures Resolution(processedResult, processingError, status) == Resolve(outcome)
    {
      request := ProcessImageBegin(imageDataUrl);
      ProcessImageComplete(outcome);
    }

    /** Lines 93-113: without the video and canvas elements nothing happens;
        otherwise the frame (`toDataURL`'s output, an input here) is kept and
        sent. `processImage` is not awaited: its completion comes later, as a
        separate `ProcessImageComplete`. */
    method CaptureImage(elementsMounted: bool, frame: string) returns (request: Option<ProcessRequest>)
      modifies this`capturedImage, this`isProcessing, this`result, this`status
      ensures !elementsMounted ==>
        request.None? && capturedImage == old(capturedImage) && isProcessing == old(isProcessing) &&
        result == old(result) && status == old(status)
      ensures elementsMounted ==>
        request == Some(ProcessRequest(ProcessUrl, frame, language, context)) &&
        capturedImage == Some(frame) && isProcessing && result == Null &&
        status == Status(Str(ProcessingMessage), Info)
    {
      if !elementsMounted {
        return None;
      }
      capturedImage := Some(frame);
      var r := ProcessImageBegin(frame);
      request := Some(r);
    }
  }
}

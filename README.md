# Camera-to-Llama pipeline, modelled in Dafny

The system has three parts.

- A React component (`CameraFeed.js`) starts and stops the camera and switches between the front and back camera. It captures a frame and posts it, with a language and a context, to a local server. It records the outcome in its state and shows a status line.
- A Flask server (`app.py`) validates the posted JSON and strips the data-URL prefix off the image. It picks a prompt for the context and calls the Llama chat-completions API. It answers with a success or error envelope.
- A test script (`test_pipeline.py`) walks a folder of images. It parses a language and a context out of each file name, builds the same kind of prompt, and calls the API directly.

The project is organised as follows.

- `text.dfy`, module `Text`: the string operations the Python and JavaScript code relies on. These are `str.split` on one character, `os.path.splitext`, `startswith`/`endswith`, `in` on strings, and ASCII `lower()`. Each comes with its characterising lemmas.
- `wrappers.dfy`, module `Wrappers`: the `Option` type, for unset settings, absent matches and missing streams.
- `json.dfy`, module `Json`: decoded JSON values.
- `llama.dfy`, module `Llama`: the outbound model call (endpoint, key, model name, prompt, image URL) and what it can produce. The server and the script build the same `Call` with `MakeCall`, and each records the call it makes.
- `server.dfy`, module `Server`: the handler and `process_image_with_llama` as functions over their inputs. The environment settings are a `Config`. The model's reply is a `Reply`. The texts the Python runtime puts into exceptions come from a `Py` record.
- `harness.dfy`, module `Harness`: the script's filter, name parsing and prompt as functions. The per-file loop, with its `continue`, `return` and per-file `try`, is a method. It is proved equal to a specification function over the sequence of per-file events.
- `camera_feed.dfy`, module `CameraFeed`: the component as a class `CaptureSession`. Its fields are the component's state. The two `async` handlers that do work around their `await`, `startCamera` and `processImage`, are split at it into a Begin and a Complete method, so other handlers may run in between. A combined method runs both halves. `switchCamera` only computes the opposite mode and awaits `startCamera`, so it exists only as the combined `SwitchCamera`. What the awaited platform call produced (a stream or a camera error, a parsed response or a rejection) is a parameter.
- `pipeline.dfy`, module `Pipeline`: lemmas across the parts.
  - The component's request is never refused, and the captured frame reaches the model unchanged.
  - The component stores the server's envelope in its state as the server meant it.
  - The script asks the model the server's question, except for `translate`.

`startCamera` stops the tracks of the stream it holds before it asks for a new one (`CameraFeed.js`:32-34). When `getUserMedia` then fails, the `catch` branch (lines 57-72) only shows the error. `currentStream` still points at the stopped stream and `isStarted` stays true. `CaptureSession.StartCamera` and `CaptureSession.SwitchCamera` state this outright: after a refusal, a session that held a stream is started and not `Live()`.

## Model

| member | source | states |
|---|---|---|
| Text.Split | server/app.py:92 | `str.split` on one character: at least one part, no part contains the separator, no separator gives the whole string, a separator gives at least two parts |
| Text.JoinSplit | server/app.py:92 | joining the parts of a split with the separator gives back the string |
| Text.SplitJoin | test_pipeline.py:44 | splitting a join of separator-free parts gives back exactly those parts |
| Text.SecondPart | server/app.py:92 | `split(sep)[1]` is the text after the first separator, up to the next separator or the end |
| Text.SplitFirstTwo | test_pipeline.py:44-50 | with a separator, the string starts with part 0, the separator and part 1, and part 1 is followed by a separator or the end |
| Text.Lower | server/app.py:27-29 | ASCII `lower()`: the length is kept, each upper-case ASCII letter becomes its lower-case letter (32 code points on), no upper-case ASCII letter remains, and every other character is unchanged |
| Text.LowerIdempotent | test_pipeline.py:53-55 | lower-casing twice is lower-casing once |
| Text.SplitExt | test_pipeline.py:43 | `os.path.splitext`: root plus extension is the name; the extension is empty or one dot with no further dot; a leading run of dots is no extension; the extension is empty exactly when no dot follows a non-dot character |
| Llama.MakeCall | server/app.py:37-61 | bearer authorization with the key, the fixed model name, the prompt, and the image wrapped as a JPEG data URL |
| Server.Truthy | server/app.py:86 | Python truthiness: a value is falsy exactly when it is `None`, `False`, `0`, an empty string, an empty list or an empty dict |
| Server.NoImage | server/app.py:86 | `not data or 'image' not in data`: every falsy body is refused; a dict is refused exactly when it has no `image` key; a number or a boolean exactly when it is falsy |
| Server.Get | server/app.py:95-96 | `dict.get`: the stored value when the key is present, otherwise the default |
| Server.KindOf | server/app.py:27-32 | the translator kind exactly when `context.lower()` is `translate`, the tour-guide kind exactly when it is `describe` |
| Server.KindIgnoresCase | server/app.py:27-29 | the kind of a context does not change when the context is lower-cased first |
| Server.LanguageText | server/app.py:28-32 | a string language is put into the prompt as it is; any other value as the `str()` text the runtime gives it |
| Server.EnvelopeJson | server/app.py:68-76 | success is exactly `{"success": true, "result": r}`; a failure has only an `"error"` key; `"success"` is present exactly for a success |
| Server.LookupImage | server/app.py:86-90 | the 400 branch is taken exactly for a falsy body or one without `image` (dict key, list element or substring); the image is found exactly for a dict with an `image` key; a list or string that passes the check raises |
| Server.StripDataUrl | server/app.py:89-92 | a non-string raises; a string not starting with `data:image` is kept; one without a comma raises; otherwise the result is the segment between the first comma and the next one |
| Server.ServerPrompt | server/app.py:26-32 | the prompt is the prefix for the kind `context.lower()` selects, then the language and a period |
| Server.PromptDetermines | server/app.py:27-32 | two equal prompts come from the same kind of context and the same language |
| Server.ReplyEnvelope | server/app.py:63-76 | success exactly for a decoded reply, carrying it unchanged; request errors and other errors are the two prefixed error texts |
| Server.ProcessWithLlama | server/app.py:21-76 | the model is called exactly when the context is a string and the key is set, with the context's prompt; a non-string context is an unexpected error; a missing key is the missing-key error; no error text is empty |
| Server.ProcessImage | server/app.py:78-104 | status 400 exactly for a body without an image, then the fixed error and no call; 500 only with a `Server error: ` text and no call; otherwise 200; success only through a model call whose reply it carries; no call without a key; a call goes to the `LLAMA_API_URL` setting when it is set and to the public chat-completions URL otherwise |
| Server.DataUrlWithoutComma | server/app.py:89-104 | a `data:image` string without a comma gives status 500 with the server-error text and no call |
| Server.StringRequest | server/app.py:94-99 | with string fields, the language defaults to `English` and the context to `describe`; the status is 200; the call carries the prompt for them and the stripped image, or there is the missing-key error and no call |
| Server.DefaultPrompt | server/app.py:95-96 | a body with neither field asks for the tour-guide description in English |
| Harness.ImageFiles | test_pipeline.py:29 | a name is kept exactly when it is in the listing and its lower-cased form ends in `.png`, `.jpg`, `.jpeg` or `.gif`; never more names than listed |
| Harness.ImageFilesAppend | test_pipeline.py:29 | the filter of a concatenation is the concatenation of the filters, so order is kept |
| Harness.ParseName | test_pipeline.py:43-50 | no result exactly when the root has no `_`; otherwise language and context are the first two `_`-separated parts of the root, each ending at an `_` or the end |
| Harness.HarnessPrompt | test_pipeline.py:52-58 | the script's prompt per context, with its own translator text, ending in the language and a period |
| Harness.EventOfFile | test_pipeline.py:41-104 | the contract of `EventOf`, one file's event with a key present: a file is skipped exactly when its root has no `_`; it is requested exactly when it also reads; a request carries the file's reply and the call with the URL, the key, the prompt and the file's encoded contents; the prompt comes from the context and language in its name |
| Harness.RunFrom | test_pipeline.py:37-106 | the loop from one file on: its events are the files' events in order, never more than the files left; it finishes, with one event per file, or stops only when the key is missing |
| Harness.Outcome | test_pipeline.py:19-106 | the whole run: a missing folder exactly when the folder does not exist; no images exactly when it exists and the filter leaves nothing; a stop at a file only with a missing key; at most one event per image file, and exactly one each when the run finishes |
| Harness.PrepareFile | test_pipeline.py:38-62 | the loop body up to the key check either yields the file's event (never a request) or reaches the key check with the prompt of that event |
| Harness.TestImageTranslation | test_pipeline.py:19-36 | the function produces exactly the run `Outcome` specifies for the URL and key settings; no folder or no image files return at once |
| Harness.VisitFiles | test_pipeline.py:37-106 | the loop produces exactly the run `RunFrom` specifies from the first file: each file's event in order until a missing key stops the run |
| Harness.NoRequestWithoutKey | test_pipeline.py:64-66 | without an API key no request is ever made |
| Harness.MissingKeyAborts | test_pipeline.py:64-66 | without a key the run finishes exactly when no file reaches the key check; otherwise it stops at the first file that does, after the events of the files before it |
| Harness.KeyPresentVisitsAll | test_pipeline.py:101-106 | with a key every file yields its event and the run finishes; a failing read or request never stops it |
| CameraFeed.Opposite | client/src/CameraFeed.js:89 | `environment` exactly for `user`, and `user` for anything else |
| CameraFeed.OppositeFlips | client/src/CameraFeed.js:88-90 | on the two modes used, switching never asks for the current mode, and switching twice returns to it |
| CameraFeed.CameraErrorMessage | client/src/CameraFeed.js:60-70 | the fixed failure prefix followed by the reason for each of the three named errors, otherwise the error's message or, when empty, the unknown-error text |
| CameraFeed.JsTruthy | client/src/CameraFeed.js:135-142 | JavaScript truthiness: a value is falsy exactly when it is `null`/`undefined`, `false`, `0` or an empty string |
| CameraFeed.Member | client/src/CameraFeed.js:135-142 | a property read: the field's value when the body is an object that has it; any value other than `undefined` comes only from such a field |
| CameraFeed.Resolve | client/src/CameraFeed.js:133-148 | success exactly when a parsed body has a truthy `success`, then its `result` and no error; otherwise no result, and an error equal to the status message and never falsy: the connection text on a rejection or a `null` body, else `error` or the fallback text |
| CameraFeed.CaptureSession.constructor | client/src/CameraFeed.js:7-17 | every field starts at its `useState` initial value |
| CameraFeed.CaptureSession.ShowStatus | client/src/CameraFeed.js:19-21 | the status becomes the message and kind given |
| CameraFeed.CaptureSession.ShowError | client/src/CameraFeed.js:23-25 | the status becomes the message as an error |
| CameraFeed.CaptureSession.CheckSupport | client/src/CameraFeed.js:155-158 | a browser without `getUserMedia` gets the unsupported error; otherwise the status is kept |
| CameraFeed.CaptureSession.StartCameraBegin | client/src/CameraFeed.js:27-45 | announces the request, stops the tracks of the stream held, and asks for the given mode at 1280x720 without audio |
| CameraFeed.CaptureSession.StartCameraComplete | client/src/CameraFeed.js:45-73 | a stream is kept with its mode and the camera is started with the success status; a refusal keeps the stream, mode and flag and shows the classified error |
| CameraFeed.CaptureSession.StartCamera | client/src/CameraFeed.js:27-74 | both halves; a refusal after a stream was held leaves the session started with a stopped stream |
| CameraFeed.CaptureSession.StopCamera | client/src/CameraFeed.js:76-86 | without a stream nothing changes; with one, its tracks are stopped, it is dropped, the camera is not started and the stopped status is shown |
| CameraFeed.CaptureSession.SwitchCamera | client/src/CameraFeed.js:88-91 | asks for the opposite of the current mode at 1280x720 without audio and stops the tracks of the stream held; a stream is kept with the new mode and the started status; a refusal keeps the stream, mode and flag, shows the classified error and, when a stream was held, leaves the session started and not live |
| CameraFeed.CaptureSession.PressStartStop | client/src/CameraFeed.js:171 | when started, stops the camera: the stream is dropped and its tracks stopped, the camera is not started, the mode is kept and the stopped status shown; otherwise asks for the front camera and either keeps the new stream with the started status, or, refused, shows the classified error with no stream |
| CameraFeed.CaptureSession.CaptureImage | client/src/CameraFeed.js:93-113 | without the video and canvas elements nothing changes; otherwise the frame is kept and sent with the chosen language and context |
| CameraFeed.CaptureSession.ProcessImageBegin | client/src/CameraFeed.js:115-131 | marks the request running, clears the result, shows the processing status and posts the frame, language and context to the server |
| CameraFeed.CaptureSession.ProcessImageComplete | client/src/CameraFeed.js:133-151 | the result, the error and the status are those `Resolve` gives for the outcome, and processing is over on every path |
| CameraFeed.CaptureSession.ProcessImage | client/src/CameraFeed.js:115-152 | both halves: the request sent, the result cleared, the outcome resolved and processing over |
| Pipeline.RequestJson | client/src/CameraFeed.js:126-130 | the posted body is an object with exactly `image`, `language` and `context`, each the string the component holds |
| Pipeline.ClientRequestHasImage | server/app.py:86-87 | whatever the component sends is never refused for a missing image |
| Pipeline.FrameStripped | server/app.py:91-92 | the server cuts a JPEG data URL down to exactly its base64 payload |
| Pipeline.FrameReachesModel | server/app.py:89-99 | a captured JPEG frame gets status 200; with a key the model receives the prompt for the chosen context and language and the same image URL the component captured; without a key there is the missing-key error and no call |
| Pipeline.EnvelopeRecorded | client/src/CameraFeed.js:135-143 | a success envelope is stored as the component's result with the success status; a failure as its error text, in both the error and the status |
| Pipeline.ResponseRecorded | client/src/CameraFeed.js:133-143 | for every response of the handler, the component's state records success exactly when the server succeeded, with the server's result or error text |
| Pipeline.MenuContexts | client/src/CameraFeed.js:197-200 | the two contexts the menu offers select the tour-guide and the translator prompts |
| Pipeline.HarnessMatchesServer | test_pipeline.py:53-58 | the script's prompt equals the server's exactly when the context is not `translate`; for `translate` it is one character shorter |

## Left out

- Browser platform calls are not modelled: `getUserMedia`, `video.srcObject`, canvas drawing and `toDataURL`. Their outcomes are parameters: a stream handle or an error name and message, and the frame text. `track.stop()` is recorded only in the ghost set `stopped`.
- The image quality and the canvas dimensions are not modelled, because they only affect the platform's encoding.
- `fetch` and `response.json()` are network I/O. Their outcome is a parameter: a parsed body or a rejection. The HTTP status is not seen by the component, which reads any body it can parse.
- React mechanics are not modelled: rendering, JSX, CSS, batched state updates and stale closures. State updates are immediate field assignments, and each handler reads the latest state. The effect of lines 154-166 is only modelled as its support check, `CheckSupport`.
- Rendering (lines 168-247) is not modelled, so the model says what the component stores, not what it displays. A successful reply is the model's decoded JSON, an object, and line 241 renders `processedResult` as a child of a paragraph. React refuses a plain object as a child and throws while rendering, and neither `App.js` nor `index.js` wraps the component in an error boundary. So a real success leaves the page blank instead of displaying the result.
- The effect's cleanup (lines 160-165) is not modelled. The effect depends on `currentStream` (line 166), so React runs the cleanup at unmount and also whenever `currentStream` changes, stopping the tracks of the previous stream. When two starts overlap, the stream that `StartCameraComplete` replaces is stopped by that cleanup in the browser, but it never enters the ghost set `stopped`. The support check, which the effect also repeats on every change, is modelled once.
- The select handlers for language and context (lines 185-200) are not modelled as methods. Nor are the button visibility and `disabled` conditions (lines 174-179). Any language and context strings are allowed, and the capture method does not require a started, idle session.
- `console.error` logging is not modelled.
- JavaScript `undefined` and `null` are one value: the component treats them alike everywhere it reads them.
- Flask routing, CORS, the `/health` route, `app.run`, `PORT` and `load_dotenv` are not modelled. The `LLAMA_API_URL` and `LLAMA_API_KEY` settings that `os.getenv` reads are inputs, `None` when unset: a `Config` for the server, two parameters for the script. The default URL is applied by `Llama.ApiUrl`. What `request.get_json()` produced is a `Body`: the decoded value, or the text of the exception Flask raised.
- `requests.post`, `raise_for_status` and `response.json()` are network I/O. Their combined outcome is a `Reply`.
- The texts Python puts into exceptions in `str(e)` come from `Py`, as does `str()` of a non-string language.
- JSON numbers are integers, and floating-point values are not modelled. `lower()` maps ASCII letters only, because Unicode case mapping is left out.
- In `test_pipeline.py`, reading and base64-encoding a file are not modelled: the read's success is `FileIo.readable`. The prints and the `json.dumps` of the reply are not modelled either. The listing of the folder, in `os.listdir` order, is an input. A request event records the prompt, the `Call` built from the encoded contents, and the reply.
- `client/src/index.js` and `client/src/App.js` are not part of this model: they only mount the component.

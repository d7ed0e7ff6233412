# ImagoPedia: a verified model of the capture session and the analysis client

ImagoPedia is a browser app that takes a frame from the device camera (or an
uploaded image), sends it to a Gemini model with a mode-specific prompt and
JSON response schema, and overlays the returned bounding boxes; tapping a box
opens its details. In "Normal" mode the answer describes objects, in "Health"
mode possible plant or skin concerns.

This project models, in Dafny, the three parts of the app that hold logic:

- `types.dfy` (module `Types`), the data contracts of `types.ts`: `Mode`, the
  bounding box, and the untagged `Identification` union as a two-constructor
  datatype, with its JSON form (`Encode`) and the presence-of-`name`/`issue`
  reading of a JSON object (`Decode`), proved to round-trip.
- `data_url.dfy` (module `DataUrl`), `fileToGenerativePart`: the pattern
  `^data:(image\/\w+);base64,(.*)$` written out as a scan, proved to accept
  exactly the composed data URLs and to split them back into their parts.
- `gemini_service.dfy` (module `GeminiService`), the rest of
  `services/geminiService.ts`: the two response schemas and their required
  lists, the prompts, the request built per mode, `String.prototype.trim`,
  the response normaliser, and `analyzeImage` with its error shape. The
  remote model and `JSON.parse` are oracle functions passed in.
- `app.dfy` (module `App`), the session controller of `App.tsx` as a class
  `Session` whose fields are the component's state hooks, one method per
  handler. The invariant `Valid()` says that a camera stream and an uploaded
  preview are never held together and that the modal is open exactly when
  something is selected; it holds in the model, where each handler runs on
  the current state (the app itself can break the first half, see below). Each method names in its `modifies` clause the
  fields it writes, so every other field is unchanged. Ghost state records
  the calls made on the camera (track stops and stream requests, in order)
  and the analysis calls still in flight. The asynchronous `handleAnalysis`
  is split into `StartAnalysis` (returns a `Ticket` with the image and the
  mode of the call it issues) and `CompleteAnalysis` (applies the service's
  outcome for one ticket); completions may be applied in any order. Each
  completion lowers the processing flag and either replaces the list (on
  success) or sets the analysis error (on failure); the last success
  decides the list, and an error stays until the next analysis starts or a
  camera setup succeeds. A field `attached` records which stream the
  `<video>` element's `srcObject` holds.
- `scenarios.dfy` (module `Scenarios`), client code that drives a session
  through event sequences (upload and answer, failure, a scan with no camera,
  an upload during a running scan, an error that outlives a later success,
  a mode switch during a scan, a failed camera re-setup, two toggles, a
  reset after an upload, a scan over an uploaded preview, select and
  close) and asserts what the handlers' contracts imply.
- `wrappers.dfy` and `json_value.dfy`: `Option`, `Result`, the JSON value
  datatype and JavaScript truthiness on it.

Behaviour of the code worth knowing:

- A failed camera setup does not return the session to a "no camera" state:
  the held stream has already been stopped but stays stored, so the "Camera
  Not Found" notice stays hidden and the next reset stops the same tracks
  again (App.tsx:24-26, 37-40; `Scenarios.SetupFailureKeepsStoppedStream`).
- A failed analysis does not clear the identifications itself; they are empty
  only because the start of that analysis cleared them. A successful
  completion of an overlapping analysis applied before it keeps its list
  (App.tsx:108-116).
- The scan button is disabled while an analysis is running
  (components/Header.tsx:62-63), but the upload control is not, so two
  analyses overlap when a file is uploaded while a scan is still running.
  The upload's completion then lowers the processing flag while the scan's
  call is still in flight, and whichever completion is applied last decides
  the list. When that is the scan, the camera frame's boxes are drawn over
  the uploaded image (App.tsx:69-78, 108-116;
  `Scenarios.UploadDuringScanLastWins`).
- A success does not clear a stored error: when the upload's call fails
  first and the still-running scan then succeeds, the camera frame's list is
  shown over the uploaded image together with the upload's error toast
  (App.tsx:108-116; `Scenarios.ErrorSurvivesLaterSuccess`).
- A stream is attached to the video only if the `<video>` element is
  rendered when the setup succeeds (App.tsx:31-33, 148-152). After an
  upload, a successful reset or toggle stores the stream and hides the
  "Camera Not Found" notice, but the video is mounted afresh with no source
  and stays dark (`Scenarios.UploadThenResetLeavesVideoDark`).
- While the video element is rendered, a scan always issues a call: the
  canvas is always mounted (App.tsx:146), and `toDataURL` never gives an
  empty string. A video with no picture (the "Camera Not Found" state, or
  the dark video after an upload) yields `data:,`, which the data-URL
  pattern rejects, so such a scan ends in "Failed to analyze the image.
  Please try again." and never in the capture error
  (App.tsx:90-99, 111-113; `Scenarios.NoCameraScanFails`). The model takes
  the frame's text as an input and does not derive `data:,` from the
  video's size.
- While an uploaded preview is shown, `videoRef.current` is null
  (App.tsx:90), so a scan never grabs a frame and always ends with "Could
  not capture an image to analyze." (`Scenarios.ScanOverPreviewFails`).
  This is the only way to reach that message.
- The reader callback of `handleFileChange` uses the `cameraStream` of the
  render in which the file was chosen (App.tsx:69-75). If a camera setup
  stores a new stream after the file is chosen and before it has loaded,
  the callback neither stops nor clears that stream. Both the stream and
  the preview are then held, and the camera keeps running behind the
  uploaded image. The model runs each handler on the current state, so
  `Valid()` excludes this case; stale closures are listed under
  "## Left out".
- The boundingBox sub-schema declares its four numbers but requires none of
  them, so an answer can satisfy the schema without coordinates;
  `Types.Decode` demands them, as the TypeScript interface does.

## Model

| member | source | states |
|---|---|---|
| `Types.ModeHasTwoValues` | types.ts:1 | Mode has exactly the two distinct values Normal and Health |
| `Types.Encode` | types.ts:3-27 | The JSON form of an identification is an object that always has a boundingBox and a description, `name` exactly for Normal and `issue` exactly for Health |
| `Types.EncodedKeys` | types.ts:10-25 | The JSON form of an identification has exactly the keys its variant declares and no other |
| `Types.DecodeStrings` | types.ts:13 | A JSON array reads as a string list exactly when every element is a string, element by element |
| `Types.Decode` | types.ts:27 | An object reads as an identification only if it lacks one of `name`/`issue`; the variant is Normal exactly when `name` is present and Health exactly when `issue` is, and the title and description read are the object's own |
| `Types.StringsRoundTrip` | types.ts:13 | Reading back an encoded string list gives the list |
| `Types.NormalRoundTrip` | types.ts:10-17 | Reading back the JSON form of a Normal identification gives it back |
| `Types.HealthRoundTrip` | types.ts:19-25 | Reading back the JSON form of a Health identification gives it back |
| `Types.IdentificationRoundTrip` | types.ts:27 | Decode(Encode(id)) == Some(id) for both variants |
| `Types.EveryIdentificationHasBox` | types.ts:3-8 | Every identification's JSON carries a boundingBox object with exactly x_min, y_min, x_max, y_max, reading back as its box |
| `Types.KindIsExclusive` | types.ts:27 | A value read as Normal has no `issue`; one read as Health has no `name` |
| `DataUrl.WordRun` | services/geminiService.ts:67 | The greedy `\w+` run: all word characters, ending at the string's end or a non-word character |
| `DataUrl.Parse` | services/geminiService.ts:66-78 | Errors are 'Invalid base64 string'; an accepted string is `data:image/` + a non-empty `\w` subtype + `;base64,` + a payload without line terminators, and the result is `image/<subtype>` and that payload |
| `DataUrl.ParseCompose` | services/geminiService.ts:67-76 | Round trip: a composed data URL with a non-empty `\w` subtype and a line-terminator-free payload parses to exactly (`image/`+subtype, payload) |
| `DataUrl.AcceptsExactlyDataUrls` | services/geminiService.ts:67-70 | Parse succeeds if and only if the string is a well-formed composed data URL |
| `DataUrl.EmptyPayloadAccepted` | services/geminiService.ts:67 | An empty payload is accepted |
| `DataUrl.ComposeShape` | services/geminiService.ts:67 | Every well-formed data URL starts with `data:image/`, holds the marker after the subtype and has no line terminator |
| `DataUrl.RejectsNonWordSubtype` | services/geminiService.ts:67-70 | A subtype whose word run is followed by anything but `;` (`+`, `-`, `.`) is rejected |
| `DataUrl.RejectsOtherTypes` | services/geminiService.ts:67-70 | A string not starting with `data:image/` is rejected |
| `DataUrl.RejectsWithoutMarker` | services/geminiService.ts:67-70 | A string without `;base64,` is rejected |
| `DataUrl.RejectsLineBreak` | services/geminiService.ts:67-70 | A string holding a line terminator anywhere is rejected |
| `DataUrl.RejectsSvgExample` | services/geminiService.ts:67-70 | `data:image/svg+xml;base64,...` is rejected |
| `DataUrl.RejectsTextExample` | services/geminiService.ts:67-70 | `data:text/plain;base64,...` is rejected |
| `DataUrl.RejectsLineFeedExample` | services/geminiService.ts:67-70 | A payload with a line feed is rejected |
| `GeminiService.DisclaimersPresent` | services/geminiService.ts:90-94 | The Health prompt contains "This is not medical advice." and the Health system instruction the not-a-substitute disclaimer |
| `GeminiService.BuildRequest` | services/geminiService.ts:86-105 | The request carries the image part, model gemini-2.5-flash and JSON output; its schema is an array of objects whose required list is exactly the mode's identification keys; in Health mode prompt and instruction carry the disclaimers |
| `GeminiService.ItemSchema` | services/geminiService.ts:88-92 | The item schema of the requested array: normalSchema in Normal mode, healthSchema in Health mode |
| `GeminiService.Conforms` | services/geminiService.ts:11-64 | What it means for a JSON value to satisfy a schema: strings, numbers, arrays element by element, objects with every required key present and every declared property present of its declared shape |
| `GeminiService.SchemaRequiresTypeKeys` | services/geminiService.ts:34-63 | Each mode's schema requires exactly the keys its identification type declares, and declares a property for each |
| `GeminiService.StringsConform` | services/geminiService.ts:16-20 | An encoded string list satisfies the array-of-strings schema |
| `GeminiService.NormalConforms` | services/geminiService.ts:11-35 | The JSON form of a Normal identification satisfies the Normal item schema |
| `GeminiService.HealthConforms` | services/geminiService.ts:37-64 | The JSON form of a Health identification satisfies the Health item schema |
| `GeminiService.EncodedConforms` | services/geminiService.ts:86-94 | Every identification's JSON form satisfies the item schema of its mode |
| `GeminiService.IsSpace` | services/geminiService.ts:107 | The characters `trim` removes: ECMAScript WhiteSpace (tab, vertical tab, form feed, space, no-break space, zero-width no-break space and the Unicode space separators) and LineTerminator (line feed, carriage return, line and paragraph separators) |
| `GeminiService.TrimStart` | services/geminiService.ts:107 | The result is a suffix not starting with white space, and everything cut is white space |
| `GeminiService.TrimEnd` | services/geminiService.ts:107 | The result is a prefix not ending with white space, and everything cut is white space |
| `GeminiService.Trim` | services/geminiService.ts:107 | The result is a substring neither starting nor ending with white space, with only white space cut at either end |
| `GeminiService.TrimStartPadded` | services/geminiService.ts:107 | Removing leading white space from white space + text gives the text |
| `GeminiService.TrimEndPadded` | services/geminiService.ts:107 | Removing trailing white space from text + white space gives the text |
| `GeminiService.TrimPadded` | services/geminiService.ts:107 | Trimming text padded with white space on both sides gives the text |
| `GeminiService.TrimIdempotent` | services/geminiService.ts:107 | Trimming twice equals trimming once |
| `GeminiService.Normalise` | services/geminiService.ts:110-116 | An array is returned unchanged, a non-null object becomes a one-element list, null, booleans, numbers and strings become the empty list |
| `GeminiService.NormaliseUniform` | services/geminiService.ts:110-116 | A lone object and a one-element array normalise alike; normalising a normalised answer changes nothing; only arrays give more than one element |
| `GeminiService.ArrayAnswerReturned` | services/geminiService.ts:66-116 | For a well-formed data URL whose request is answered with text that trims and parses to an array, analyzeImage returns that very array |
| `GeminiService.AnalyzeImage` | services/geminiService.ts:80-121 | A malformed data URL fails with 'Invalid base64 string' whatever the oracles do (no request); otherwise the call succeeds exactly when the remote answers and the trimmed text parses, any failure being 'Failed to get analysis from AI.', and the result is the normalised parsed answer |
| `App.Flip` | App.tsx:55 | The new facing differs from the old one (user and environment swap) |
| `App.Stops` | App.tsx:25 | One stop call per track, in track order |
| `App.ImageSource` | App.tsx:88-106 | The image argument when it is a non-empty string, else a non-empty grabbed frame; nothing exactly when neither is a non-empty string |
| `App.ModalContent` | components/InfoModal.tsx:80-85 | Normal content exactly when the mode is Normal and the answer is an object with a truthy `name`; Health content exactly when the mode is Health and it has a truthy `issue`; otherwise neither content (a numeric `0` title is rendered as the text "0", which is not modelled) |
| `App.DetailFollowsKind` | components/InfoModal.tsx:80-85 | A decoded identification shows its own content in its own mode (non-empty title) and nothing in the other mode |
| `App.Session.Valid` | App.tsx:12-17 | The invariant the handlers keep: a stream and an uploaded preview are never held together, the modal is open exactly when something is selected, and a stream is attached only to a rendered video element |
| `App.Session.CameraNoticeShown` | App.tsx:154 | The "Camera Not Found" notice shows when there is no stream and no truthy preview |
| `App.Session.VideoShown` | App.tsx:148-152 | The `<video>` element is rendered exactly when the preview is not truthy |
| `App.Session.ErrorToastShown` | App.tsx:182 | The error toast shows when the error is a non-empty string and nothing is processing |
| `App.Session.ModalShown` | App.tsx:206 | The detail modal renders when it is open and the selection is truthy |
| `App.Session.ScanEnabled` | components/Header.tsx:63 | The scan button is disabled exactly while processing |
| `App.Session.Grab` | App.tsx:90-99 | The canvas's frame is grabbed exactly when the video element is rendered; with a truthy preview there is none |
| `App.Session.constructor` | App.tsx:9-17 | Initial state: Normal, environment, no identifications, no selection, modal closed, not processing, no error, no stream, no preview, nothing attached to the video |
| `App.Session.StopTracks` | App.tsx:25 | Appends a stop call for every track of the stream, in order |
| `App.Session.SetupCamera` | App.tsx:22-41 | Stops the held stream's tracks, then requests the facing; on success stores the stream, attaches it to the video only if no preview was shown, and clears preview, identifications and error; on failure sets only the camera error, keeping the stopped stream; keeps Valid |
| `App.Session.Mount` | App.tsx:43-45 | Sets up the camera with the current facing |
| `App.Session.ToggleCamera` | App.tsx:54-58 | Flips the facing and sets up the camera with the new value |
| `App.Session.ResetCamera` | App.tsx:60-63 | Sets up the camera with the unchanged facing |
| `App.Session.FileLoaded` | App.tsx:69-78 | For a non-empty data URL (what the reader yields), sets the preview, which replaces the video element and detaches its source; stops and drops any stream, empties identifications, and issues an analysis of exactly that image in the current mode, added to the calls already in flight |
| `App.Session.Scan` | App.tsx:141 | Callable only while the scan button is enabled (components/Header.tsx:62-63), with the canvas's non-empty `toDataURL` frame; issues a call exactly when the video element is rendered, with that frame and the current mode, raising processing and clearing the error; while a preview is shown issues none and sets the capture error with processing down; the list is emptied either way |
| `App.Session.StartAnalysis` | App.tsx:83-106 | Clears identifications; takes the image if truthy, else the grabbed frame if truthy; with a source, raises processing, clears the error, hides the toast, disables the scan button and issues a call with that image and the current mode; with none, sets the capture error, lowers processing, shows the toast and issues no call |
| `App.Session.CompleteAnalysis` | App.tsx:108-116 | Given what the service call for a ticket in flight settled to: success replaces identifications with the service's list and keeps any stored error; failure sets the analysis error, shows the toast and leaves identifications; processing ends false and the scan button is enabled; the ticket leaves the calls in flight |
| `App.Session.BoxClick` | App.tsx:119-122 | Selects the clicked identification and opens the modal |
| `App.Session.CloseModal` | App.tsx:124-127 | Clears the selection and closes the modal, so it is not rendered |
| `App.Session.ChangeMode` | App.tsx:129-132 | Sets the mode and empties identifications; nothing else changes |
| `App.LiveStreamIsDisplayed` | App.tsx:148-154 | Under the invariant, while a stream is held the video element is rendered and the "Camera Not Found" notice is hidden; an attached stream implies a rendered video; a preview hides the notice and excludes a held or attached stream |

## Left out

- The Gemini SDK, the network call, the API-key check at module load and the
  `console.error` logging (services/geminiService.ts:1-9, 97-105, 119): the
  call is an oracle from the request to the response text or a failure.
- `JSON.parse` (services/geminiService.ts:108): an oracle from text to a
  parsed value or a failure.
- The `description` strings inside the response schemas: the model keeps
  the property names, their `type` tags (as the `Schema` constructors) and
  the required lists.
- The `console.error` logging in App.tsx:38 and App.tsx:112.
- Browser effects: `getUserMedia` is an outcome input, `track.stop()` a
  recorded call, the video `srcObject` assignment (App.tsx:31-33) is the
  `attached` field (playback itself is not modelled), the file reader's result is a non-empty string input (a
  failed read that yields null, and the `if (file)` guard for an empty
  selection, are not modelled; a successful `readAsDataURL` always yields at
  least `data:`, so `App.Session.FileLoaded` requires a non-empty string), and the canvas's `toDataURL` result is a non-empty string input
  (`getContext('2d')` returning null is not modelled).
- Promise scheduling, React's batched updates and stale closures: each
  camera setup is applied as one event with its outcome; the unmount cleanup
  (App.tsx:46-50), which reads the stream of the first render, is not
  modelled; a file loaded after a mode switch is analysed with the mode
  current when it loads.
- App.Session.CompleteAnalysis: receives the value that `await
  analyzeImage(...)` settled to as a parameter instead of computing it; the
  contract does not itself say that this value is
  GeminiService.AnalyzeImage of the ticket's image and mode, which the
  service model states on its own.
- The overlay positions (App.tsx:189-204), the aria labels and all styling.
- The rendering in components/Header.tsx and components/InfoModal.tsx apart
  from the scan button's disabled state and the choice of detail content.
- Strings are sequences of Unicode scalar values, not UTF-16 code units;
  JSON numbers are reals and object member order is not kept.

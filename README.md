# Dual-Frame-Capture (FlipCast Duo) in Dafny

FlipCast Duo is a browser camera screen. It takes one camera stream and draws
it at the same time into a 1280x720 landscape canvas and a 720x1280 portrait
canvas. Each canvas gets a centred "cover" crop, zoomed between 1.0x and 3.0x.
In video mode the screen records both canvases side by side and offers one
`.webm` file per view when the recording stops. In photo mode it saves one
PNG per view. A small Express server stores capture records
(title, type, two URLs) behind three JSON routes, and seeds two example
records into an empty store.

This project models that core and proves properties about it:

- `crop.dfy` (module `Crop`): `clamp` and the crop arithmetic of
  `drawCroppedCover`, over `real`.
- `zoom.dfy` (module `Zoom`): the zoom handlers. Zoom is held in tenths
  (10..30), so the `toFixed(1)` rounding of the source becomes exact integer
  steps.
- `capture.dfy` (module `Capture`): the capture screen's state as the class
  `CaptureScreen`. It covers the camera outcome, mode switches, zoom events,
  `startRecording`, `stopRecording`, `onRecord`, `onCapture`, the recorders'
  `dataavailable` and `stop` events and the one-second timer. The module also
  holds the MIME-type candidate loop, `formatTime`, the download file names
  and the crops one render tick draws. As written, the tick draws with the
  zooms of the first render (1.0x and 1.4x); a corrected tick that follows the
  current zooms sits beside it (see Findings).
- `routes.dfy` (module `Routes`): the shared API route table and `buildUrl`,
  including what `String.prototype.replace` does with `$` patterns in a
  string replacement.
- `server.dfy` (module `Server`): an in-memory store shaped like `IStorage`,
  the request-body validation of the insert schema, the list/get/create
  handlers and `seedDatabase`.
- `text.dfy` and `wrappers.dfy`: decimal text, `padStart`, `join`,
  `indexOf`/`includes`, and `Option`/`Result`.

Behaviour worth knowing, as the code has it:

- The microphone is requested together with the camera, not when recording
  starts.
- Mode can be switched while recording, and the recording goes on.
- The two recorders are started and stopped one after the other, and nothing
  joins them.
- Zoom has no smoothing and no pinch gesture.

## Model

| member | source | states |
|---|---|---|
| Crop.Clamp | client/src/pages/capture.tsx:7-9 | the result lies in [lo, hi]; it is n inside the range, lo below it and hi above it |
| Crop.CoverCrop | client/src/pages/capture.tsx:120-122 | nothing is drawn exactly when the frame has no width or no height |
| Crop.BaseCrop | client/src/pages/capture.tsx:125-139 | the unzoomed crop keeps either the frame's full width or its full height |
| Crop.BaseCropShape | client/src/pages/capture.tsx:125-139 | the unzoomed crop has the canvas's aspect ratio and fits in the frame; a wider frame keeps the full height, otherwise the full width is kept |
| Crop.CoverCropInsideFrame | client/src/pages/capture.tsx:141-151 | the drawn rectangle lies inside the frame, is centred on it, keeps the canvas aspect, and is the base crop divided by the zoom clamped to [1, 3] |
| Crop.CoverCropUnzoomed | client/src/pages/capture.tsx:141-148 | a zoom of 1 or less draws the centred base crop itself |
| Crop.OutputAspects | client/src/pages/capture.tsx:289-290 | the landscape crop is 16:9 and the portrait crop is 9:16 at every zoom |
| Zoom.RoundToTenths | client/src/pages/capture.tsx:328 | `Number(x.toFixed(1))` counted in tenths: the result is within half a tenth of x |
| Zoom.WheelDelta | client/src/pages/capture.tsx:327 | the step is 0.1 or -0.1, and it is negative exactly when deltaY is positive |
| Zoom.WheelStep | client/src/pages/capture.tsx:328 | a wheel step always leaves the zoom in [1.0, 3.0] |
| Zoom.ButtonStep | client/src/pages/capture.tsx:570 | a label click always leaves the zoom in [1.0, 3.0] |
| Zoom.PresetNext | client/src/pages/capture.tsx:337-341 | a double click always lands on 1.0, 1.4 or 2.0 |
| Zoom.ClampOnGrid | client/src/pages/capture.tsx:328 | clamping a zoom on the tenths grid to [1.0, 3.0] stays on the grid, at the clamped number of tenths |
| Zoom.RoundShiftedTenths | client/src/pages/capture.tsx:328 | rounding t/10 + d/10 to one decimal gives exactly t + d tenths |
| Zoom.WheelStepExact | client/src/pages/capture.tsx:325-334 | scrolling down lowers the zoom by 0.1 and scrolling up raises it by 0.1, clamped to [1.0, 3.0] |
| Zoom.ButtonStepExact | client/src/pages/capture.tsx:568-571 | the zoom label button adds 0.1 up to 3.0 and stays at 3.0 |
| Zoom.WheelInThenOut | client/src/pages/capture.tsx:325-329 | below 3.0, one wheel step in and one out returns to the same zoom |
| Zoom.WheelOutThenIn | client/src/pages/capture.tsx:330-334 | above 1.0, one wheel step out and one in returns to the same zoom |
| Zoom.PresetCycle | client/src/pages/capture.tsx:336-349 | a double click sends a zoom below 1.2 to 1.4, one below 1.8 to 2.0, and any other to 1.0; the presets cycle 1.0, 1.4, 2.0, 1.0 |
| Capture.FirstSupported | client/src/pages/capture.tsx:380-385 | a chosen type is one of the candidates and is supported |
| Capture.FirstSupportedIsFirst | client/src/pages/capture.tsx:375-385 | the chosen type is the earliest supported candidate, and there is none exactly when no candidate is supported |
| Capture.PickMimeType | client/src/pages/capture.tsx:380-385 | the loop with its break returns the first supported candidate |
| Capture.FormatTime | client/src/pages/capture.tsx:481-489 | the text has at least five characters, with ":" third from the end |
| Capture.FormatTimeFields | client/src/pages/capture.tsx:481-489 | the text is digits, ':', then two digits; the digits read back as s / 60 and s % 60 < 60; it is exactly "mm:ss" below 100 minutes |
| Capture.TwoSecondsShown | client/src/pages/capture.tsx:481-489 | two elapsed seconds are shown as 00:02 |
| Capture.FormatTimeRoundTrip | client/src/pages/capture.tsx:481-489 | reading the shown text back as minutes * 60 + seconds gives the elapsed seconds |
| Capture.FormatTimeInjective | client/src/pages/capture.tsx:481-489 | two different durations never show the same text |
| Capture.FileNameShape | client/src/pages/capture.tsx:401-407 | every download name starts with "FlipCastDuo_" and ends with "." and its extension |
| Capture.FileNamesDistinct | client/src/pages/capture.tsx:401-407 | a landscape file and a portrait file never share a name |
| Capture.FileNameInjective | client/src/pages/capture.tsx:450-455 | two files of one view and type with the same name were named at the same millisecond |
| Capture.StaleZoomCounterexample | client/src/pages/capture.tsx:274-297 | as written, after one zoom-button click the label shows 1.1x but the drawn landscape crop of a 1920x1080 frame is the unzoomed one |
| Capture.FrameCropsAsWritten | client/src/pages/capture.tsx:274-297 | for any frame with a size, the drawn landscape crop is its whole base crop (1.0x) and the portrait crop is its base crop shrunk by 1.4, whatever zooms are passed |
| Capture.FrameCropsAsWrittenZooms | client/src/pages/capture.tsx:289-290 | the first render's zooms, 1.0 and 1.4, keep the landscape base crop whole and shrink the portrait one by 1.4 |
| Capture.FrameCrops | client/src/pages/capture.tsx:289-290 | each view's crop is absent exactly when the frame has no width or no height |
| Capture.FrameCropsFollowZoom | client/src/pages/capture.tsx:289-290 | drawing with the current zooms, each crop is its base crop divided by exactly the zoom that view shows, centred and inside the frame |
| Capture.CaptureScreen.constructor | client/src/pages/capture.tsx:158-171 | the first render is in video mode, with no camera, zooms 1.0x and 1.4x, and no recording |
| Capture.CaptureScreen.CameraStarted | client/src/pages/capture.tsx:223-254 | a successful camera start sets the camera available, clears the error and records whether a microphone track came with it |
| Capture.CaptureScreen.CameraFailed | client/src/pages/capture.tsx:298-305 | a failed start leaves no camera, with the error's message or the default notice when the message is empty |
| Capture.CaptureScreen.SetMode | client/src/pages/capture.tsx:690 | the mode buttons change only the mode, also while recording |
| Capture.CaptureScreen.Wheel | client/src/pages/capture.tsx:325-334 | one wheel event steps that view's zoom and leaves the other view and the recording alone |
| Capture.CaptureScreen.ZoomButton | client/src/pages/capture.tsx:603-606 | one label click adds 0.1 to that view's zoom only |
| Capture.CaptureScreen.ZoomPreset | client/src/pages/capture.tsx:336-349 | a double click moves that view's zoom to its next preset only |
| Capture.CaptureScreen.RenderTick | client/src/pages/capture.tsx:275-291 | one tick of the loop as written draws the landscape crop at 1.0x and the portrait crop at 1.4x, whatever zooms the screen holds and its labels show |
| Capture.CaptureScreen.RenderTickFollowingZoom | client/src/pages/capture.tsx:289-290 | the corrected tick draws both crops with the zooms the screen currently holds |
| Capture.CaptureScreen.StartRecording | client/src/pages/capture.tsx:351-423 | without both canvases nothing changes; otherwise both chunk lists are emptied, two paired recorders with the first supported type and the microphone are opened, and the timer restarts at 0 |
| Capture.CaptureScreen.StopRecording | client/src/pages/capture.tsx:425-434 | the existing recorders are stopped, landscape first, and both slots are cleared; the timer stops, and the chunks and the seconds are kept |
| Capture.CaptureScreen.OnRecord | client/src/pages/capture.tsx:436-441 | outside video mode or without a camera nothing changes; otherwise it starts a recording when none is running and stops the running one |
| Capture.CaptureScreen.OnCapture | client/src/pages/capture.tsx:443-467 | without a camera nothing happens; photo mode names one PNG per view and changes no state; video mode acts as the record button |
| Capture.CaptureScreen.OnData | client/src/pages/capture.tsx:390-395 | a non-empty chunk is appended to its own view's list and to no other list |
| Capture.CaptureScreen.Tick | client/src/pages/capture.tsx:420-422 | while the timer runs, each firing adds one second |
| Capture.CaptureScreen.OnRecorderStop | client/src/pages/capture.tsx:397-408 | the download holds that view's chunks in order, under the recorder's type or video/webm, named after the view |
| Capture.RecordThenStop | client/src/pages/capture.tsx:436-441 | record, one chunk per view, two ticks, record: the display reads 00:02, both recorders come back paired, and each list holds only its own chunk |
| Capture.SwitchModeWhileRecording | client/src/pages/capture.tsx:459-467 | switching to photo mode does not stop a recording, and CAPTURE then takes two stills |
| Capture.NoCameraIgnoresButtons | client/src/pages/capture.tsx:436-460 | without a camera neither button starts anything, in either mode |
| Routes.RouteTable | shared/routes.ts:17-44 | list and create share one path and differ in method; get has its own path |
| Routes.GetRoutePlaceholder | shared/routes.ts:28 | the get path holds ":id" first at index 14, right after "/api/captures/", and nothing follows it |
| Routes.BuildUrl | shared/routes.ts:46-56 | with no parameter object the path is returned as it is; otherwise each entry is applied in order to the url built so far |
| Routes.ValueString | shared/routes.ts:51 | the text of a number value holds no '$' |
| Routes.ReplaceFirst | shared/routes.ts:51 | with no occurrence of the pattern the string is returned unchanged |
| Routes.ReplaceFirstKeepsRest | shared/routes.ts:51 | whatever the replacement, the text before the first occurrence and the text after it are kept |
| Routes.Substitute | shared/routes.ts:50-51 | the includes() guard changes nothing: the result is the unguarded replace of ":key" by the value's text |
| Routes.ApplyParamsSingle | shared/routes.ts:49-53 | a single entry replaces the first ":key" by its value's text |
| Routes.ApplyParamsInOrder | shared/routes.ts:49-53 | applying a + b is applying a and then b |
| Routes.NoParamsKeepPath | shared/routes.ts:48 | an empty parameter object leaves the path unchanged |
| Routes.AbsentKeyKeepsUrl | shared/routes.ts:50 | an entry whose ":key" is absent leaves the url unchanged |
| Routes.PresentKeyReplacesFirst | shared/routes.ts:50-51 | for a value whose text has no '$', an entry whose ":key" first occurs at i replaces exactly that occurrence with the value's text, and the length changes by that amount |
| Routes.ExpandLiteral | shared/routes.ts:51 | a replacement without '$' is inserted as it is |
| Routes.NumberTextLiteral | shared/routes.ts:51 | the text of a number never holds a '$' |
| Routes.GetRouteUrl | shared/routes.ts:26-33 | the get route filled with {id: n} is "/api/captures/" followed by the digits of n |
| Routes.ReplacementPatternsExpand | shared/routes.ts:51 | a string value "$&" puts the matched ":id" back instead of being inserted literally |
| Server.Find | server/storage.ts:20-23 | a found record is in the store and has the id asked for; nothing is found exactly when no record has that id |
| Server.FindUnique | server/storage.ts:20-23 | with strictly increasing ids, the record found for an id is any record that has it, so there is exactly one |
| Server.Storage.constructor | server/storage.ts:15 | a new store is empty and hands out ids from 1 |
| Server.Storage.GetCaptures | server/storage.ts:16-18 | every stored record, or the store's error |
| Server.Storage.GetCapture | server/storage.ts:20-23 | the record with that id, if one exists, or the store's error |
| Server.Storage.CreateCapture | server/storage.ts:25-28 | the input is stored under the next id with the creation time, and appended; on a fault nothing changes |
| Server.TypeName | shared/schema.ts:14 | the type named in a message is "string" exactly for strings and "object" exactly for objects |
| Server.FieldIssue | shared/schema.ts:7-10 | a field has no issue exactly when it holds a string; an issue has the field's path and says "Required" exactly when the field is missing |
| Server.FieldIssues | shared/schema.ts:5-14 | no issue exactly when all required fields are strings, and at most one issue per field |
| Server.FieldIssuesFirst | shared/schema.ts:7-10 | the first issue names the first bad field in schema order, with "Required" exactly when that field is missing |
| Server.Validate | server/routes.ts:49 | a body that is not an object gets exactly one issue, at the empty path; every rejection carries at least one issue |
| Server.ValidateAccepts | shared/schema.ts:14 | a body is accepted exactly when it is an object whose title, type, landscapeUrl and portraitUrl are strings; the accepted input is those four strings, and a rejection carries an issue |
| Server.ValidationResponse | server/routes.ts:54-57 | status 400 with the first issue's message and its path joined by "." as the field: empty for the empty path, the name for a one-name path |
| Server.ValidationNamesFirstBadField | server/routes.ts:53-57 | the 400 answer names the first bad field and its message; a body that is not an object gets an empty field |
| Server.PartialBodyRejected | shared/schema.ts:8 | a body without "type" is rejected, and its first issue is "Required" at path type |
| Server.FullBodyAccepted | shared/schema.ts:14 | a body with the four strings is accepted as exactly those strings |
| Server.ListHandler | server/routes.ts:34-37 | answers 200 with every stored record; a store failure rejects the request |
| Server.GetHandler | server/routes.ts:39-45 | answers 404 "Capture not found" when no record has the id, otherwise, in a valid store, 200 with exactly the record that has the id |
| Server.CreateHandler | server/routes.ts:47-61 | an invalid body gets 400 and the store is untouched; a store failure gets 500; otherwise the record is appended and answered 201 |
| Server.SeedDatabase | server/routes.ts:7-27 | an empty store gets the video seed and then the photo seed, stopping at the first failure; a non-empty store, or a failed read, is left as it is |
| Server.SeedTwice | server/routes.ts:10 | seeding twice leaves exactly two records, video then photo, with ids 1 and 2 |
| Server.CreateScenario | server/routes.ts:47-61 | a body missing its type is answered 400 {"Required", "type"}; a complete body is answered 201 with record 1 |

## Left out

- Browser media: getUserMedia, canvas captureStream, MediaRecorder, toBlob,
  object URLs and the download anchor. These are foreign calls. Their
  outcomes are parameters: the camera result, whether a microphone track
  exists, the set of supported types, the chunks delivered, and `Date.now()`.
- The asynchronous camera effect (awaits, the `cancelled` flag, cleanup on
  unmount), the stage scaling, layout, JSX and the placeholder alerts. These
  are rendering and lifecycle, not logic.
- The race between a recorder's stop event and a new recording: the events
  are delivered as separate calls, so the model does not decide their
  interleaving.
- Floating point: the crop arithmetic is over exact reals. Zoom is held in
  tenths, and `toFixed(1)` is modelled as rounding half up. This agrees with
  the source for the 0.1 steps used.
- Capture.CaptureScreen.OnRecorderStop: when no type is passed, the browser
  chooses the recorder's type. The model gives such a recorder no type, so it
  falls back to video/webm.
- Routes.BuildUrl: the entries come in as a sequence in Object.entries order.
  Number values are integers; fractions, NaN and numbers of 1e21 or more are
  not modelled.
- Server.GetHandler: takes the id as an integer. `Number(req.params.id)`
  parsing (NaN, fractions) is not modelled.
- Server.Storage: a list in insertion order stands in for Postgres. Serial ids
  lost to failed inserts and an unspecified select order are not modelled.
  Storage failures are boolean parameters.
- Server.ListHandler: a failing await in the list and get routes is an
  unhandled rejection in Express 4. It is modelled as `Rejected`, with no
  response.
- Server.SeedDatabase: the source starts seeding without awaiting it
  (server/routes.ts:64), after the routes are registered, so requests can
  interleave with its list and inserts. The model runs it as one step.
- Server.Validate: covers the four required strings of the insert schema.
  Other Zod checks and the full issue list are not modelled; only the first
  issue is used.

## Findings

| source | as written | input that shows it | evidently intended | confidence | as-written member | corrected member |
|---|---|---|---|---|---|---|
| client/src/pages/capture.tsx:274-297 | the render loop's `draw` is created once inside an effect with no dependencies (the lint rule is switched off at line 321), so it reads `landscapeZoom` and `portraitZoom` from the first render: 1.0 and 1.4 | a 1920x1080 camera frame and one click on the landscape zoom button: the label reads 1.1x but the drawn crop is still 1920 wide instead of 1920/1.1 | each frame is drawn with the zoom its view currently shows | high (not executed) | Capture.StaleZoomCounterexample | Capture.FrameCropsFollowZoom |

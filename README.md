# Space-station safety-object detection, modelled in Dafny

This project models the detection path of a small web application. A
browser client captures webcam frames (or an uploaded image), posts them to
a server, and draws the returned boxes and labels over the video. The server
hands each frame to a Python script, `yolov8_inference.py`, which stands in
for a YOLOv8 model: it draws a random set of boxes for four object classes
(Toolbox, Oxygen Tank, Fire Extinguisher, Other), filters them by class and
confidence, and prints them as JSON.

The model has one module per source file:

- `DetectionTypes` (types.dfy): the shared records.
- `UseDetection`: the client's request lifecycle.
- `UseWebcam` and `Browser`: the camera hook over stand-ins for the media stream, video and canvas elements.
- `WebcamDisplay`: frame gating, upload handling and the overlay draw plan.
- `Home`, `ObjectClasses` and `DetectionSettingsPanel`: settings state and updates.
- `PythonInference`: the server's bridge to the script, including the script's own argument parser.
- `Yolov8Inference`: the mock detector and the script's `main`.
- `AlertModal`: the alert classifiers.
- `Strings`: join, split, lower-case and substring helpers.
- `Pipeline`: end-to-end lemmas, from the sidebar checkbox through the client request, the server route and the argument vector, to what the script prints and how the client reads it.

Code that updates state in place becomes classes with `modifies` frames:
the hooks, the page, the view, the media stream. Each of their methods is one
atomic handler step, proved against a pure step function or with a full
post-state. Loops of the source are loops here, each proved against a
specification function:

- the detector's candidate loop;
- the bridge's argument pushes and output accumulation;
- the overlay's `forEach`;
- the track-stopping `forEach`.

Randomness, device answers, the clock, number formatting, JSON parsing and
image decoding are parameters.

The overlay has no redraw-pass guard. A decode started by an older pass still
repaints the canvas after a newer pass, and `WebcamDisplay.StaleDecodeRepaints`
exhibits this.

## Model

| member | source | states |
|---|---|---|
| DetectionTypes.ClassName.Name | client/src/pages/Home.tsx:22-27 | the four record keys are non-empty and contain neither a comma nor a dash |
| DetectionTypes.ClassName.Index | client/src/pages/Home.tsx:22-27 | each class sits at its own position of the record's key order |
| DetectionTypes.Names | client/src/hooks/useDetection.ts:35 | the names of a class list, position by position |
| DetectionTypes.NamesMembership | client/src/hooks/useDetection.ts:33-35 | a class's name is in a list of names iff the class is in the list, since names identify classes |
| UseDetection.EnabledFrom | client/src/hooks/useDetection.ts:33-35 | holds exactly the enabled classes at or after a position, in strictly increasing record order |
| UseDetection.EnabledClassNames | client/src/hooks/useDetection.ts:33-35 | a class's name is listed iff its flag is set; the list is empty iff no flag is set |
| UseDetection.RequestClasses | client/src/hooks/useDetection.ts:41 | `classes` is absent iff no class is enabled, else the non-empty enabled-name list |
| UseDetection.BuildRequest | client/src/hooks/useDetection.ts:38-42 | the body carries the frame and session id; its class list is absent when no class is enabled and otherwise names exactly the enabled classes, in record order |
| UseDetection.RequestIgnoresSpeedAndDisplay | client/src/hooks/useDetection.ts:38-42 | settings differing only in speed and display flags give the same request |
| UseDetection.InitSessionStep | client/src/hooks/useDetection.ts:19-25 | an id is assigned only when none is held, and afterwards one is always held |
| UseDetection.DispatchStep | client/src/hooks/useDetection.ts:65-69 | a request is started iff neither paused nor in flight; starting sets the in-flight flag and nothing else |
| UseDetection.SettleStep | client/src/hooks/useDetection.ts:45-54 | every exit clears the in-flight flag; success replaces the results; the image changes only for a truthy `processedImage`; failure keeps both |
| UseDetection.TogglePauseStep | client/src/hooks/useDetection.ts:72-74 | negates the pause flag and changes nothing else |
| UseDetection.StatsEnabledIffSession | client/src/hooks/useDetection.ts:60 | after any sequence of events the statistics query is enabled iff a session id was held at the start or the session effect ran |
| UseDetection.AtMostOneInFlight | client/src/hooks/useDetection.ts:65-69 | over any well-formed event sequence, the requests sent (plus one if busy at the start) equal those settled (plus one if busy at the end), so at most one is open |
| UseDetection.PausedSendsNothing | client/src/hooks/useDetection.ts:65-69 | from a paused state, events with no pause toggle send no frame and leave the hook paused |
| UseDetection.SessionAssignedOnce | client/src/hooks/useDetection.ts:19-25 | starting without an id, the final id is the first one the effect offered |
| UseDetection.SessionStable | client/src/hooks/useDetection.ts:19-25 | once held, the id never changes and every request carries it |
| UseDetection.DisabledClassNeverRequested | client/src/hooks/useDetection.ts:33-41 | if a class is disabled in every frame's settings, no request names it |
| UseDetection.ResultsAreLatest | client/src/hooks/useDetection.ts:49-54 | the results shown are the last successful response; the image is the last truthy `processedImage` |
| UseDetection.DetectionHook.constructor | client/src/hooks/useDetection.ts:12-16 | the hook starts with no id, idle, unpaused, no results and no image |
| UseDetection.DetectionHook.RunSessionEffect | client/src/hooks/useDetection.ts:19-25 | the new state is the session step of the old |
| UseDetection.DetectionHook.DetectObjects | client/src/hooks/useDetection.ts:65-69 | the new state and request are the dispatch step of the old state |
| UseDetection.DetectionHook.SettleRequest | client/src/hooks/useDetection.ts:45-54 | the new state is the settle step of the old |
| UseDetection.DetectionHook.ToggleDetectionPause | client/src/hooks/useDetection.ts:72-74 | the new state is the toggle step of the old |
| UseWebcam.ResolveProps | client/src/hooks/useWebcam.ts:13-18 | absent props default to enabled, a 1000 ms interval and 1280x720 |
| UseWebcam.ConstraintsFor | client/src/hooks/useWebcam.ts:41-47 | the ideal width and height are the resolution's, without audio |
| UseWebcam.FailureMessage | client/src/hooks/useWebcam.ts:58 | the error text is "Failed to access webcam: " followed by the reason |
| UseWebcam.WebcamHook.constructor | client/src/hooks/useWebcam.ts:19-26 | not ready, no error, no stream, no interval; enabled as the prop says |
| UseWebcam.WebcamHook.AtMostOneInterval | client/src/hooks/useWebcam.ts:117-136 | the window never holds more than one of the hook's intervals |
| UseWebcam.WebcamHook.InitWebcam | client/src/hooks/useWebcam.ts:29-61 | stops the old stream first; a missing API or a rejection sets the error and leaves ready false; success stores the stream and sets ready only with a video element |
| UseWebcam.WebcamHook.StopWebcam | client/src/hooks/useWebcam.ts:64-75 | every acquired stream is stopped, the stream dropped, the video detached, ready false; a second call changes nothing |
| UseWebcam.WebcamHook.ToggleWebcam | client/src/hooks/useWebcam.ts:78-86 | negates the enabled flag; when it was set, releases every stream and keeps the error; otherwise has `initWebcam`'s outcomes (unsupported message, stored stream, ready only with a video, rejection message); the interval is untouched |
| UseWebcam.WebcamHook.CaptureFrame | client/src/hooks/useWebcam.ts:89-114 | nothing unless video, ready and canvas; otherwise the canvas takes the video size and, given a context, the frame is returned and passed to `onFrame` |
| UseWebcam.WebcamHook.IntervalEffect | client/src/hooks/useWebcam.ts:117-128 | installs one interval iff enabled, ready and `onFrame` is set, clearing any previous one first; stream, flags and error are kept |
| UseWebcam.WebcamHook.IntervalCleanup | client/src/hooks/useWebcam.ts:130-135 | the referenced interval is cleared and forgotten; stream, flags and error are kept |
| UseWebcam.WebcamHook.MountEffect | client/src/hooks/useWebcam.ts:139-143 | nothing changes when the hook is disabled; otherwise `initWebcam`'s outcomes, with the enabled flag and the interval untouched |
| UseWebcam.WebcamHook.UnmountCleanup | client/src/hooks/useWebcam.ts:144-149 | the camera is released and no interval is left installed; the enabled flag, the error and the reference are kept |
| Browser.MediaStream.StopAllTracks | client/src/hooks/useWebcam.ts:37 | every track of the stream is stopped |
| WebcamDisplay.ForwardFrame | client/src/components/WebcamDisplay.tsx:32-36 | a frame reaches `onDetect` iff in webcam mode and not paused, unchanged |
| WebcamDisplay.HookConfig | client/src/components/WebcamDisplay.tsx:31-39 | the camera runs iff in webcam mode, every 1000 ms, at 1280x720, with `onFrame` set |
| WebcamDisplay.ColorFor | client/src/components/WebcamDisplay.tsx:97-107 | a class name gets its class colour; any other name gets "#FFFFFF" |
| WebcamDisplay.ColorsDistinct | client/src/components/WebcamDisplay.tsx:97-102 | the four classes get four distinct colours, none of them the default |
| WebcamDisplay.LabelText | client/src/components/WebcamDisplay.tsx:117-120 | the class name, followed by " NN%" iff confidence is shown |
| WebcamDisplay.DetectionOps | client/src/components/WebcamDisplay.tsx:106-132 | the box commands in colour at the detection's box, then the five label commands iff labels are shown |
| WebcamDisplay.OneRectPerDetection | client/src/components/WebcamDisplay.tsx:105-112 | the pass strokes exactly one rectangle per detection, at its box, in order |
| WebcamDisplay.LabelsIffShown | client/src/components/WebcamDisplay.tsx:115-132 | the pass draws every detection's label in order when labels are shown, and no text otherwise |
| WebcamDisplay.LabelPlacement | client/src/components/WebcamDisplay.tsx:122-131 | the background is at (x, y-20), text width + 10 wide and 20 high; the text is at (x+5, y-5), inside it |
| WebcamDisplay.SizeForPass | client/src/components/WebcamDisplay.tsx:88-94 | the video size in webcam mode, the uploaded size in upload mode, otherwise the current size |
| WebcamDisplay.HiddenOverlayDrawsNothing | client/src/components/WebcamDisplay.tsx:167 | a hidden overlay has no box pass; a shown overlay without an image has one |
| WebcamDisplay.DisplayView.HandleFileUpload | client/src/components/WebcamDisplay.tsx:42-60 | no file: nothing; otherwise the file is stored and `onDetect` is called once with its data URL iff it decodes |
| WebcamDisplay.DisplayView.DrawOverlay | client/src/components/WebcamDisplay.tsx:63-134 | clears; with an image, only starts its decode; otherwise sizes the canvas and appends the full box plan |
| WebcamDisplay.DisplayView.SizeOverlay | client/src/components/WebcamDisplay.tsx:88-94 | the canvas takes the size the pass calls for |
| WebcamDisplay.DisplayView.DrawDetections | client/src/components/WebcamDisplay.tsx:105-133 | the loop appends the commands of every detection, in order |
| WebcamDisplay.DisplayView.DecodeCompleted | client/src/components/WebcamDisplay.tsx:76-81 | the canvas takes the decoded size and draws that image, whichever pass started it |
| WebcamDisplay.LastDrawnImage | client/src/components/WebcamDisplay.tsx:80 | the image of a draw command with no image drawn after it, or none when no image was drawn |
| WebcamDisplay.StaleDecodeRepaints | client/src/components/WebcamDisplay.tsx:74-83 | an older decode finishing last leaves the canvas showing the older image at its size |
| Home.MergeSettings | client/src/pages/Home.tsx:57-62 | each present field replaces the old value; each absent field keeps it |
| Home.MergeEmpty | client/src/pages/Home.tsx:57-62 | merging an empty partial changes nothing |
| Home.MergeTwice | client/src/pages/Home.tsx:57-62 | two merges equal one merge of the overriding partial |
| Home.MergeIdempotent | client/src/pages/Home.tsx:57-62 | merging the same partial twice equals merging it once |
| Home.PanelCheckboxFlips | client/src/components/DetectionSettings.tsx:14-16 | after the merge exactly the clicked display flag is negated; clicking twice restores the settings |
| Home.PanelSpeedSets | client/src/components/DetectionSettings.tsx:10-12 | after the merge only the speed changes |
| Home.SidebarSessionId | client/src/pages/Home.tsx:89 | the sidebar shows the id, or "" exactly when none is held |
| Home.HomePage.constructor | client/src/pages/Home.tsx:12-37 | webcam mode, dialog closed, Balanced with labels, confidence and all classes on, and the default application settings |
| Home.HomePage.ToggleSettingsModal | client/src/pages/Home.tsx:46-48 | negates the dialog flag and changes nothing else |
| Home.HomePage.HandleSettingsChange | client/src/pages/Home.tsx:51-54 | stores the new settings and closes the dialog |
| Home.HomePage.HandleDetectionSettingsChange | client/src/pages/Home.tsx:57-62 | the settings become the merge of the partial into the old ones |
| Home.HomePage.SetInputMode | client/src/pages/Home.tsx:85 | sets the mode and changes nothing else |
| ObjectClasses.ToggleClass | client/src/components/ObjectClasses.tsx:14-19 | negates the one class's flag and keeps the other three |
| ObjectClasses.ToggleTwice | client/src/components/ObjectClasses.tsx:14-19 | toggling a class twice restores the record |
| ObjectClasses.ToggleCommutes | client/src/components/ObjectClasses.tsx:14-19 | toggles of two classes commute |
| ObjectClasses.OnCheckboxChange | client/src/components/ObjectClasses.tsx:26-71 | a checkbox negates what it shows and leaves what the others show unchanged |
| ObjectClasses.CheckboxPerClass | client/src/components/ObjectClasses.tsx:26-71 | every class has a checkbox |
| DetectionSettingsPanel.SpeedOptionsComplete | client/src/components/DetectionSettings.tsx:29-31 | every speed is selectable, each listed once under a distinct label |
| DetectionSettingsPanel.SpeedChange | client/src/components/DetectionSettings.tsx:10-12 | the partial holds only the chosen speed |
| DetectionSettingsPanel.CheckboxChange | client/src/components/DetectionSettings.tsx:14-16 | the partial holds only the clicked flag, negated |
| PythonInference.ScriptPath | server/python_inference.ts:15 | the script path extends the working directory |
| PythonInference.ArgVector | server/python_inference.ts:28-48 | always begins with the script, "--session-id" and the id, and has at most ten entries |
| PythonInference.StdinPayload | server/python_inference.ts:56-59 | the payload is written iff the base64 image is truthy, and it is that image |
| PythonInference.BuildArgs | server/python_inference.ts:28-48 | the successive pushes build the argument vector and the stdin payload |
| PythonInference.SetFlag | server/yolov8_inference.py:156-160 | a value flag stores its value in its own field; a repeated flag keeps the last value |
| PythonInference.ParseArgs | server/yolov8_inference.py:155-162 | a parse succeeds only with a session id; a missing one is a usage error |
| PythonInference.ArgsRoundTrip | server/python_inference.ts:28-48 | with no value that looks like an option, the script parses the vector back to the options it was built from |
| PythonInference.Concat | server/python_inference.ts:61-70 | one chunk is itself; no chunks is empty |
| PythonInference.Accumulate | server/python_inference.ts:64-70 | the `data` handlers' accumulation is the concatenation of the chunks |
| PythonInference.CloseOutcome | server/python_inference.ts:72-84 | resolves iff the exit code is 0 and the output parses; a non-zero code rejects with stderr; unparsable output rejects |
| PythonInference.DetectObjects | server/python_inference.ts:22-88 | a missing script rejects before any spawn; otherwise the child gets the vector and payload, and the close handler decides |
| Strings.SplitJoin | server/yolov8_inference.py:173 | splitting a join of comma-free parts on the comma gives the parts back |
| Strings.JoinEmpty | server/python_inference.ts:47 | a join is empty iff there is nothing to join or the single part is empty |
| Strings.JoinChars | server/python_inference.ts:47 | a character in no part other than the separator is not in the join |
| Strings.ToLower | client/src/components/AlertModal.tsx:20 | lower-cases each character in place and keeps the length |
| Strings.ToLowerIdempotent | client/src/components/AlertModal.tsx:20 | lower-casing twice is lower-casing once |
| Yolov8Inference.FilterIn | server/yolov8_inference.py:34 | keeps exactly the elements in both lists, as a subsequence of the first |
| Yolov8Inference.FilterInAll | server/yolov8_inference.py:34 | filtering by a list that holds every element changes nothing |
| Yolov8Inference.AvailableClasses | server/yolov8_inference.py:31-34 | all model classes for a None or empty filter, otherwise the model classes in the filter |
| Yolov8Inference.AvailableInModelOrder | server/yolov8_inference.py:31-34 | for every filter, the available classes are a subsequence of the model's list at strictly increasing model positions, so in model order and without repeats |
| Yolov8Inference.FilterInNone | server/yolov8_inference.py:34 | filtering by a list that shares no element leaves nothing |
| Yolov8Inference.FullFilterKeepsAll | server/yolov8_inference.py:31-34 | a filter naming every class keeps all four |
| Yolov8Inference.RandInt | server/yolov8_inference.py:41 | a value in [lo, hi), or an error iff the range is empty |
| Yolov8Inference.ConfidenceRange | server/yolov8_inference.py:53-59 | each class's range lies within [0.65, 0.97] |
| Yolov8Inference.DrawConfidence | server/yolov8_inference.py:53-59 | a confidence lies in its class's range |
| Yolov8Inference.NumObjects | server/yolov8_inference.py:41 | between 2 and 5 candidates |
| Yolov8Inference.Candidate | server/yolov8_inference.py:44-59 | fails iff no class is available or a side is under 3 pixels; otherwise an available class and a box strictly inside the image |
| Yolov8Inference.DrawCandidate | server/yolov8_inference.py:44-59 | the loop body's draws produce the specified candidate |
| Yolov8Inference.Detect | server/yolov8_inference.py:26-74 | the loop returns the specified detections: candidates at or above the threshold, in order |
| Yolov8Inference.ResultsFacts | server/yolov8_inference.py:43-72 | the partial results fail exactly on degenerate input; otherwise they are plausible, at or above the threshold, and no more than the candidates drawn |
| Yolov8Inference.SizeRangeNonEmpty | server/yolov8_inference.py:48-49 | a box-size range is empty exactly when the side is under 3 pixels |
| Yolov8Inference.DetectErrorIff | server/yolov8_inference.py:26-51 | `detect` raises iff no class is available or the image is too small; a filter matching no class raises rather than returning nothing |
| Yolov8Inference.DetectOutput | server/yolov8_inference.py:43-74 | every detection is of an available class, at or above the threshold, with its box inside the image; at most five |
| Yolov8Inference.LowThresholdKeepsAll | server/yolov8_inference.py:61-62 | with a threshold of at most 0.65, every candidate is kept |
| Yolov8Inference.ReadImage | server/yolov8_inference.py:141-152 | a truthy path wins and fails if missing; else truthy base64; else the no-source error |
| Yolov8Inference.ClassFilter | server/yolov8_inference.py:171-173 | a truthy `--classes` gives its comma split; otherwise no filter |
| Yolov8Inference.ClassFilterRoundTrip | server/yolov8_inference.py:171-173 | a joined list of comma-free names, other than one empty name, parses back to the list |
| Yolov8Inference.ConfThreshold | server/yolov8_inference.py:159 | 0.45 when absent, otherwise the parsed text |
| Yolov8Inference.ExitCode | server/yolov8_inference.py:200-214 | the exit status is 0 iff the script printed a result |
| Yolov8Inference.RunMain | server/yolov8_inference.py:154-214 | a printed result comes only from a successful parse and echoes its session id |
| Yolov8Inference.RunParsed | server/yolov8_inference.py:163-214 | after a successful parse, a printed result echoes the parsed session id |
| Yolov8Inference.EmitDetection | server/yolov8_inference.py:63-72 | the record's keys are "class_name", "confidence" and "box" |
| Yolov8Inference.EmitDetectionCorrected | shared/schema.ts:68-77 | the record keyed "className", as the response schema expects |
| AlertModal.GetAlertColor | client/src/components/AlertModal.tsx:19-33 | the border for each named lower-cased level; yellow iff the level is none of them |
| AlertModal.GetAlertIcon | client/src/components/AlertModal.tsx:35-40 | fire, then oxygen, then tool, else the generic icon, by lower-cased substring |
| AlertModal.IgnoresCase | client/src/components/AlertModal.tsx:20 | texts equal up to case get the same border and icon |
| AlertModal.ExtendingTypeKeepsIcon | client/src/components/AlertModal.tsx:35-40 | adding text around a type never moves it to a later icon in the fire, oxygen, tool, generic order |
| AlertModal.FireAnywhere | client/src/components/AlertModal.tsx:36 | any type containing "fire" or "FIRE" gets the fire icon, whatever surrounds it |
| Strings.ToLowerConcat | client/src/components/AlertModal.tsx:36-38 | lower-casing distributes over concatenation |
| Strings.ContainsExtends | client/src/components/AlertModal.tsx:36-38 | a substring stays a substring when text is added on either side |
| Pipeline.FrameReachesServerIff | client/src/hooks/useDetection.ts:65-69 | a captured frame is sent iff in webcam mode, unpaused and idle, carrying the frame and id, and only then is the hook busy |
| Pipeline.UntickedClassNotRequested | client/src/components/ObjectClasses.tsx:14-19 | unticking a class removes exactly it from the next request; the list is dropped only when none is left |
| Pipeline.Base64Options | server/routes.ts:69-84 | a null id is rejected with 500, then an empty image with 400; otherwise the image, the id or a fresh one, 0.45 and the classes go to the bridge |
| Pipeline.RequestBeforeSessionRefused | server/routes.ts:71 | a frame sent before the session effect runs is refused with 500 |
| Pipeline.RequestAfterSessionAccepted | server/routes.ts:77 | after the session effect, every non-empty frame goes to the bridge under the client's id |
| Pipeline.ClassListIsPlain | server/python_inference.ts:47 | a joined class list never looks like an option to the script's parser |
| Pipeline.DisabledClassNeverDetected | server/yolov8_inference.py:171-187 | with an id held and some class ticked, every detection printed is of a ticked class |
| Pipeline.SameAvailableSameRun | server/yolov8_inference.py:31-34 | two argument vectors that differ only in class lists leaving the same classes available give the same run |
| Pipeline.AllTickedKeepsAll | server/yolov8_inference.py:31-34 | all classes ticked sends every name, which the script parses to a filter keeping all four |
| Pipeline.AllUntickedDetectsEverything | client/src/hooks/useDetection.ts:41 | all classes unticked sends no list, so the script runs exactly as with all ticked |
| Pipeline.ClientClassName | client/src/components/WebcamDisplay.tsx:106 | the client reads the string under `className`, or "undefined" when it is missing |
| Pipeline.ClassNameLostAsWritten | server/yolov8_inference.py:64 | every printed record reads as class "undefined" on the client, and the colour the box pass would pick for it is the default white |
| Pipeline.ClassNameKeptCorrected | shared/schema.ts:69 | the corrected record reads as the detector's class and gets that class's colour |
| Pipeline.AnnotatedImageNeverLoadsAsWritten | server/yolov8_inference.py:133 | after any annotated response, the hook holds an image that is not a data URL, so the overlay's decode never completes |
| Pipeline.ProcessedImageCorrected | server/yolov8_inference.py:198 | the corrected annotated image is a data URL whose payload is the base64 text |
| Pipeline.AnnotatedImageLoadsCorrected | client/src/components/WebcamDisplay.tsx:74-83 | with data URLs, the image held after an annotated response is one the overlay can load |

## Left out

- React scheduling, re-renders and stale closures: each handler and effect is one atomic step, and the order of steps is the caller's choice.
- react-query retries, caching and the statistics refetch interval. The statistics route and its mock figures are not part of this model.
- Timers: `setInterval` is modelled as a table of installed intervals, and ticks are calls to `CaptureFrame`. AlertModal's 10-second auto-close is not modelled, because it is only a timer.
- `getUserMedia`, media tracks, video playback and canvas pixels are stand-in classes. The device's answer is an input.
- `toDataURL`, `measureText` and `toFixed` are inputs: the encoded frame, a text-width function and a percentage formatter.
- JavaScript `toString` of the threshold and Python `float()` parsing are inputs (`formatNumber`, `parseFloat`).
- `JSON.parse` of the script's output is an input (`parse`), and JSON printing is modelled only as the keys of a detection record.
- The image-mean hash and seeding become the oracle `rand`/`unit`: draw 0 is the object count and object i uses draws 1+6i to 6+6i. `np.random.uniform` is a draw from its range.
- OpenCV: `draw_detections`, JPEG encoding, base64 decoding and `imread`/`imdecode` are not modelled. Decoding is an input that yields the image's size or nothing. This includes what the script makes of the data-URL prefix of a webcam frame, which it passes to `b64decode` unstripped.
- The script's output fields `processedImage` and `processingTime` are not part of `RunMain`'s result.
- The script's `except` path is modelled as a `Raised` outcome with exit status 1. The error JSON it prints is not modelled.
- argparse's abbreviations, `--flag=value` syntax and help output are not modelled. Negative-number and option detection follow argparse's rules only for the tokens this pipeline produces.
- `sys.stdin.read().strip()`: `RunMain` takes the already-stripped text.
- Process spawning, the `PYTHON_PATH` lookup and the streams' timing are not modelled. The child's run is an input: its chunks and exit code.
- `path.join` normalisation: `ScriptPath` concatenates with "/".
- The upload route `/api/detect-image`, multer and temp-file cleanup are not part of this model.
- The body parser and zod are modelled only for the fields the client sends: a string image, a string or null session id, and an optional class list.
- `toLowerCase` beyond ASCII letters: non-ASCII characters are left unchanged.
- Prototype keys of the colour map, such as "constructor", are not modelled: `ColorFor` treats every non-class name as missing.
- The video and canvas refs are constants of the hook, and attaching new elements is not modelled.
- `FileReader` is not modelled: the reader's data URLs and the upload's decoded size are inputs.
- WebcamDisplay.DisplayView.DecodeCompleted: takes only `data:` URLs, which the browser decodes without a fetch. Any other text in `img.src` is fetched as a same-origin path that serves no image, so `onload` never fires for it. The model does not follow that fetch.
- WebcamDisplay.DisplayView.DrawDetections: the label width is an input taken as is. In the source it depends on the font, and the font is stale on the first label. Assigning `canvas.width` (WebcamDisplay.tsx:89-93) resets the context's font, and `ctx.font` is set only after `measureText` (WebcamDisplay.tsx:127-130). So after a pass that resizes the canvas, its first label is measured in the default font and the rest in "14px Arial". The model does not track the font.
- UseWebcam.WebcamHook.MountEffect: runs once per call, at the caller's choice. `WebcamDisplay` passes no `resolution`, so the default object (useWebcam.ts:17) is new on every render. `initWebcam` changes identity with it, so the mount effect's dependencies (useWebcam.ts:150) change on every render. React then runs the cleanup and the effect again after each render: the stream is stopped and requested anew. The model leaves this re-render cycle out, because renders are not modelled.
- Python floats and JavaScript numbers are Dafny `real`s, with no rounding. This covers `Uniform`, `DrawConfidence`, the `confidence >= conf` test and the threshold. numpy's `uniform` can round up to its upper bound, which the model's half-open range excludes.
- The page's unused alert state (`showAlertModal`, `currentAlert`) and the settings dialog's form are not modelled, because nothing in the detection path reads them.
- Pipeline.DisabledClassNeverDetected and Pipeline.AllUntickedDetectsEverything hold only for session ids and a threshold text that argparse would not take for options. A UUID and "0.45" qualify.

## Findings

| source | as written | input that shows it | evidently intended | confidence | as-written member | corrected member |
|---|---|---|---|---|---|---|
| server/yolov8_inference.py:64 | each detection record is keyed `class_name`, and the route passes it through unchanged | any response with at least one detection. On the canvas the symptom is hidden by the second finding: every successful response carries a truthy `processedImage` (line 198), so the overlay returns before the box pass (client/src/components/WebcamDisplay.tsx:74-84). The record is still read as class "undefined" | the `className` key of shared/schema.ts:69 and the client's `Detection` type | high, not executed | Pipeline.ClassNameLostAsWritten | Pipeline.ClassNameKeptCorrected |
| server/yolov8_inference.py:133 | the annotated image is bare base64, which the client assigns to `img.src` (client/src/components/WebcamDisplay.tsx:82) | any successful response, since line 198 always sets `processedImage`; for example a request whose `image` is bare base64 JPEG text. A webcam frame keeps its data-URL prefix, which may keep it from decoding at all, so the client's own frames may never reach this line | a `data:image/jpeg;base64,` URL that the image element can load | high, not executed | Pipeline.AnnotatedImageNeverLoadsAsWritten | Pipeline.AnnotatedImageLoadsCorrected |

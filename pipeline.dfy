/**
 * The path of one webcam frame through the system: the client's request
 * (client/src/hooks/useDetection.ts), the base64 route's hand-off to the
 * bridge (server/routes.ts), the bridge's argument vector
 * (server/python_inference.ts), the detector script
 * (server/yolov8_inference.py), and the client's reading of the records it
 * prints (client/src/components/WebcamDisplay.tsx). The lemmas here connect
 * the modules end to end.
 */
module Pipeline {
  import opened DetectionTypes
  import opened Strings
  import ObjectClasses
  import Home
  import UseDetection
  import WebcamDisplay
  import PythonInference
  import Yolov8Inference

  // ---- Client side ----

  /** A captured frame handed on by the view and then by the hook: the
    * request that leaves the client, and the hook's new state. */
  function FrameToRequest(s: UseDetection.ClientState, mode: InputMode, image: string,
                          settings: DetectionSettings): (r: (UseDetection.ClientState, Option<UseDetection.DetectRequest>))
  {
    match WebcamDisplay.ForwardFrame(mode, s.isDetectionPaused, image)
    case None => (s, None)
    case Some(frame) => UseDetection.DispatchStep(s, frame, settings)
  }

  /** A frame reaches the server exactly in webcam mode, while detection is
    * neither paused nor already in flight; the request carries that frame
    * and the current session id, and only then is the hook marked busy. */
  lemma FrameReachesServerIff(s: UseDetection.ClientState, mode: InputMode, image: string, settings: DetectionSettings)
    ensures var r := FrameToRequest(s, mode, image, settings);
            r.1.Some? <==> mode == Webcam && !s.isDetectionPaused && !s.isDetecting
    ensures var r := FrameToRequest(s, mode, image, settings);
            r.1.Some? ==> r.1.value.image == image && r.1.value.sessionId == s.sessionId && r.0 == s.(isDetecting := true)
    ensures var r := FrameToRequest(s, mode, image, settings);
            r.1.None? ==> r.0 == s
  {
  }

  /** Unticking a ticked checkbox in the panel and merging the record into
    * the page's settings removes exactly that class from the next request:
    * the class is not sent, every other class is sent as before, and the
    * list is omitted only when no class is left. */
  lemma UntickedClassNotRequested(settings: DetectionSettings, box: nat, image: string, sessionId: Option<string>)
    requires box < |ObjectClasses.Checkboxes|
    requires ObjectClasses.Checked(settings.enabledClasses, box)
    ensures var ec := ObjectClasses.OnCheckboxChange(settings.enabledClasses, box);
            var req := UseDetection.BuildRequest(image, sessionId,
                         Home.MergeSettings(settings, PartialSettings(None, None, None, Some(ec))));
            && (req.classes.Some? ==> ObjectClasses.Checkboxes[box].Name() !in req.classes.value)
            && (req.classes.Some? ==> forall c: ClassName :: c != ObjectClasses.Checkboxes[box] ==>
                                        (c.Name() in req.classes.value <==> settings.enabledClasses.Get(c)))
            && (req.classes.None? <==> forall c: ClassName :: c != ObjectClasses.Checkboxes[box] ==> !settings.enabledClasses.Get(c))
  {
    var c0 := ObjectClasses.Checkboxes[box];
    var ec := ObjectClasses.OnCheckboxChange(settings.enabledClasses, box);
    assert ec == ObjectClasses.ToggleClass(settings.enabledClasses, c0);
    assert !ec.Get(c0);
  }

  // ---- Server side ----

  /** The base64 route's hand-off, or the status it answers with instead.
    * The body is validated first: the schema lets `sessionId` be absent but
    * not null, so the null id a client holds before its session effect has
    * run fails validation, which the route answers with status 500. Then a
    * request without a truthy image is refused with status 400. Otherwise the
    * bridge gets the image, the request's session id or a fresh one when that
    * is empty, the fixed threshold 0.45 and the request's class list as it came. */
  function Base64Options(req: UseDetection.DetectRequest, freshId: string): (o: Result<PythonInference.DetectionOptions, nat>)
    ensures o == Err(500) <==> req.sessionId.None?
    ensures o == Err(400) <==> req.sessionId.Some? && req.image == ""
    ensures o.Ok? <==> req.sessionId.Some? && req.image != ""
    ensures o.Ok? ==> o.value.imagePath.None? && o.value.base64Image == Some(req.image)
    ensures o.Ok? ==> o.value.confidenceThreshold == Some(Yolov8Inference.DefaultConfThreshold)
    ensures o.Ok? ==> o.value.classes == req.classes
    ensures o.Ok? ==> o.value.sessionId == (if req.sessionId.value != "" then req.sessionId.value else freshId)
  {
    if req.sessionId.None? then Err(500)
    else if req.image == "" then Err(400)
    else
      var sessionId := if Truthy(req.sessionId) then req.sessionId.value else freshId;
      Ok(PythonInference.DetectionOptions(None, Some(req.image), sessionId, Some(0.45), req.classes))
  }

  /** A frame the hook sends before its session effect has run carries a
    * null session id and is refused by the route with status 500. */
  lemma RequestBeforeSessionRefused(s: UseDetection.ClientState, image: string, settings: DetectionSettings, freshId: string)
    requires s.sessionId.None?
    ensures var r := UseDetection.DispatchStep(s, image, settings);
            r.1.Some? ==> Base64Options(r.1.value, freshId) == Err(500)
  {
  }

  /** Once the session effect has run, every non-empty frame the hook sends
    * is handed to the bridge under the client's own session id. */
  lemma RequestAfterSessionAccepted(s: UseDetection.ClientState, id: UseDetection.Uuid, image: string,
                                    settings: DetectionSettings, freshId: string)
    requires image != ""
    ensures var s1 := UseDetection.InitSessionStep(s, id);
            var r := UseDetection.DispatchStep(s1, image, settings);
            r.1.Some? ==> Base64Options(r.1.value, freshId).Ok?
                          && Base64Options(r.1.value, freshId).value.sessionId == s1.sessionId.value
  {
  }

  /** The script's run on what the bridge hands it for options `o`. */
  function ScriptRun(o: PythonInference.DetectionOptions, cwd: string, formatNumber: real -> string,
                     fileExists: string -> bool, decode: Yolov8Inference.ImageSource -> Option<Yolov8Inference.ImageShape>,
                     parseFloat: string -> Option<real>, rand: nat -> nat, unit: nat -> Yolov8Inference.Unit)
    : Yolov8Inference.ScriptOutcome
  {
    var argv := PythonInference.ArgVector(o, PythonInference.ScriptPath(cwd), formatNumber);
    var stdin := PythonInference.StdinPayload(o);
    Yolov8Inference.RunMain(argv[1..], if stdin.Some? then stdin.value else "", fileExists, decode, parseFloat, rand, unit)
  }

  /** A joined list of class names is never mistaken for an option: class
    * names hold neither a comma nor a dash. */
  lemma ClassListIsPlain(cs: seq<ClassName>)
    ensures !PythonInference.OptionLike(Join(Names(cs), ','))
  {
    var names := Names(cs);
    forall i | 0 <= i < |names| ensures '-' !in names[i] {
      assert names[i] == cs[i].Name();
    }
    JoinChars(names, ',', '-');
    var s := Join(names, ',');
    if |s| >= 2 {
      assert s[0] in s;
    }
  }

  /** End to end: once the client holds a session id and at least one class
    * is ticked, every detection the script prints for a webcam frame is of a
    * ticked class, so a class the user unticked never comes back. The session id and the threshold text
    * must not look like options to the script's argument parser. */
  lemma DisabledClassNeverDetected(
    ec: EnabledClasses, image: string, sent: Option<string>, freshId: string,
    cwd: string, formatNumber: real -> string, fileExists: string -> bool,
    decode: Yolov8Inference.ImageSource -> Option<Yolov8Inference.ImageShape>,
    parseFloat: string -> Option<real>, rand: nat -> nat, unit: nat -> Yolov8Inference.Unit)
    requires image != "" && sent.Some?
    requires exists c: ClassName :: ec.Get(c)
    requires !PythonInference.OptionLike(if Truthy(sent) then sent.value else freshId)
    requires !PythonInference.OptionLike(formatNumber(Yolov8Inference.DefaultConfThreshold))
    ensures var req := UseDetection.DetectRequest(image, sent, UseDetection.RequestClasses(ec));
            var o := Base64Options(req, freshId).value;
            var out := ScriptRun(o, cwd, formatNumber, fileExists, decode, parseFloat, rand, unit);
            out.Printed? ==>
              && (forall d :: d in out.detections ==> d.className in UseDetection.EnabledClassNames(ec))
              && (forall d, c: ClassName :: d in out.detections && !ec.Get(c) ==> d.className != c.Name())
  {
    var names := UseDetection.EnabledClassNames(ec);
    var cs := UseDetection.EnabledFrom(ec, 0);
    assert names == Names(cs);
    var req := UseDetection.DetectRequest(image, sent, UseDetection.RequestClasses(ec));
    var o := Base64Options(req, freshId).value;
    assert o.classes == Some(names) && names != [];
    ClassListIsPlain(cs);
    assert PythonInference.PlainValues(o, formatNumber);
    var scriptPath := PythonInference.ScriptPath(cwd);
    var argv := PythonInference.ArgVector(o, scriptPath, formatNumber)[1..];
    PythonInference.ArgsRoundTrip(o, scriptPath, formatNumber);
    var args := PythonInference.Expected(o, formatNumber);
    assert PythonInference.ParseArgs(argv) == Ok(args);
    assert args.classes == Some(Join(names, ','));
    forall i | 0 <= i < |names| ensures ',' !in names[i] {
      assert names[i] == cs[i].Name();
    }
    assert names[0] == cs[0].Name();
    Yolov8Inference.ClassFilterRoundTrip(names);
    var filter := Yolov8Inference.ClassFilter(args.classes);
    assert filter == Some(names);
    var out := ScriptRun(o, cwd, formatNumber, fileExists, decode, parseFloat, rand, unit);
    if out.Printed? {
      var conf := Yolov8Inference.ConfThreshold(args.confThreshold, parseFloat).value;
      var source := Yolov8Inference.ReadImage(args.imagePath, Some(image), fileExists).value;
      var shape := decode(source).value;
      assert out.detections == Yolov8Inference.DetectSpec(shape, conf, filter, rand, unit).value;
      Yolov8Inference.DetectOutput(shape, conf, filter, rand, unit);
    }
  }

  /** Two argument vectors that parse alike except for the class list, and
    * whose class lists leave the same classes available, run alike. */
  lemma SameAvailableSameRun(
    argvA: seq<string>, argvB: seq<string>, stdinText: string, fileExists: string -> bool,
    decode: Yolov8Inference.ImageSource -> Option<Yolov8Inference.ImageShape>,
    parseFloat: string -> Option<real>, rand: nat -> nat, unit: nat -> Yolov8Inference.Unit)
    requires PythonInference.ParseArgs(argvA).Ok? && PythonInference.ParseArgs(argvB).Ok?
    requires PythonInference.ParseArgs(argvA).value.(classes := None) == PythonInference.ParseArgs(argvB).value.(classes := None)
    requires Yolov8Inference.AvailableClasses(Yolov8Inference.ClassFilter(PythonInference.ParseArgs(argvA).value.classes))
             == Yolov8Inference.AvailableClasses(Yolov8Inference.ClassFilter(PythonInference.ParseArgs(argvB).value.classes))
    ensures Yolov8Inference.RunMain(argvA, stdinText, fileExists, decode, parseFloat, rand, unit)
            == Yolov8Inference.RunMain(argvB, stdinText, fileExists, decode, parseFloat, rand, unit)
  {
    var a := PythonInference.ParseArgs(argvA).value;
    var b := PythonInference.ParseArgs(argvB).value;
    assert a.confThreshold == b.confThreshold && a.imagePath == b.imagePath;
    assert a.base64Stdin == b.base64Stdin && a.sessionId == b.sessionId;
    assert a == b.(classes := a.classes);
    var fa := Yolov8Inference.ClassFilter(a.classes);
    var fb := Yolov8Inference.ClassFilter(b.classes);
    forall shape, conf
      ensures Yolov8Inference.DetectSpec(shape, conf, fa, rand, unit) == Yolov8Inference.DetectSpec(shape, conf, fb, rand, unit)
    {
    }
    assert Yolov8Inference.RunParsed(a, stdinText, fileExists, decode, parseFloat, rand, unit)
           == Yolov8Inference.RunParsed(b, stdinText, fileExists, decode, parseFloat, rand, unit);
  }

  /** The names a list of classes sends back from the script's class filter
    * unchanged, and are never mistaken for an option. */
  lemma NamesSurviveFilter(cs: seq<ClassName>)
    requires cs != []
    ensures !PythonInference.OptionLike(Join(Names(cs), ','))
    ensures Yolov8Inference.ClassFilter(Some(Join(Names(cs), ','))) == Some(Names(cs))
  {
    var names := Names(cs);
    ClassListIsPlain(cs);
    forall i | 0 <= i < |names| ensures ',' !in names[i] {
      assert names[i] == cs[i].Name();
    }
    assert names[0] == cs[0].Name();
    Yolov8Inference.ClassFilterRoundTrip(names);
  }

  /** With every class ticked, every model class is among the names sent. */
  lemma AllTickedNamesAll()
    ensures forall s :: s in Yolov8Inference.ModelClasses ==> s in UseDetection.EnabledClassNames(Home.AllEnabled)
  {
    var names := UseDetection.EnabledClassNames(Home.AllEnabled);
    assert Yolov8Inference.ModelClasses == [Toolbox.Name(), OxygenTank.Name(), FireExtinguisher.Name(), Other.Name()];
    assert Toolbox.Name() in names && OxygenTank.Name() in names;
    assert FireExtinguisher.Name() in names && Other.Name() in names;
  }

  /** Every class ticked sends the names of all model classes, which the
    * script parses back to a filter that keeps every model class. */
  lemma AllTickedKeepsAll()
    ensures UseDetection.RequestClasses(Home.AllEnabled).Some?
    ensures var names := UseDetection.RequestClasses(Home.AllEnabled).value;
            && !PythonInference.OptionLike(Join(names, ','))
            && Yolov8Inference.AvailableClasses(Yolov8Inference.ClassFilter(Some(Join(names, ','))))
               == Yolov8Inference.ModelClasses
  {
    var names := UseDetection.EnabledClassNames(Home.AllEnabled);
    var cs := UseDetection.EnabledFrom(Home.AllEnabled, 0);
    assert names == Names(cs);
    assert Home.AllEnabled.Get(Toolbox);
    NamesSurviveFilter(cs);
    AllTickedNamesAll();
    Yolov8Inference.FullFilterKeepsAll(names);
  }

  /** Unticking every class sends no list, so the script detects all classes:
    * the run is the one with every class ticked. */
  lemma AllUntickedDetectsEverything(
    image: string, sent: Option<string>, freshId: string,
    cwd: string, formatNumber: real -> string, fileExists: string -> bool,
    decode: Yolov8Inference.ImageSource -> Option<Yolov8Inference.ImageShape>,
    parseFloat: string -> Option<real>, rand: nat -> nat, unit: nat -> Yolov8Inference.Unit)
    requires image != "" && sent.Some?
    requires !PythonInference.OptionLike(if Truthy(sent) then sent.value else freshId)
    requires !PythonInference.OptionLike(formatNumber(Yolov8Inference.DefaultConfThreshold))
    ensures var none := EnabledClasses(false, false, false, false);
            var oNone := Base64Options(UseDetection.DetectRequest(image, sent, UseDetection.RequestClasses(none)), freshId).value;
            var oAll := Base64Options(UseDetection.DetectRequest(image, sent, UseDetection.RequestClasses(Home.AllEnabled)), freshId).value;
            && oNone.classes.None?
            && ScriptRun(oNone, cwd, formatNumber, fileExists, decode, parseFloat, rand, unit)
               == ScriptRun(oAll, cwd, formatNumber, fileExists, decode, parseFloat, rand, unit)
  {
    var none := EnabledClasses(false, false, false, false);
    var oNone := Base64Options(UseDetection.DetectRequest(image, sent, UseDetection.RequestClasses(none)), freshId).value;
    var oAll := Base64Options(UseDetection.DetectRequest(image, sent, UseDetection.RequestClasses(Home.AllEnabled)), freshId).value;
    assert oNone.classes.None?;
    AllTickedKeepsAll();
    var scriptPath := PythonInference.ScriptPath(cwd);
    PythonInference.ArgsRoundTrip(oNone, scriptPath, formatNumber);
    PythonInference.ArgsRoundTrip(oAll, scriptPath, formatNumber);
    assert PythonInference.StdinPayload(oNone) == PythonInference.StdinPayload(oAll);
    SameAvailableSameRun(PythonInference.ArgVector(oNone, scriptPath, formatNumber)[1..],
                         PythonInference.ArgVector(oAll, scriptPath, formatNumber)[1..],
                         image, fileExists, decode, parseFloat, rand, unit);
  }

  // ---- The records the client reads ----

  /** What the client reads as a detection's class: the string under
    * `className`, or the text `undefined` when the record has none. */
  function ClientClassName(rec: map<string, Yolov8Inference.Json>): (name: string)
    ensures "className" in rec && rec["className"].JStr? ==> name == rec["className"].s
    ensures "className" !in rec ==> name == "undefined"
  {
    if "className" in rec && rec["className"].JStr? then rec["className"].s else "undefined"
  }

  /** As written, every record the script prints lacks `className`, so the
    * client reads its class as `undefined`, and the box pass would pick the
    * default white for it. */
  lemma ClassNameLostAsWritten(d: Yolov8Inference.RawDetection)
    ensures ClientClassName(Yolov8Inference.EmitDetection(d)) == "undefined"
    ensures WebcamDisplay.ColorFor(ClientClassName(Yolov8Inference.EmitDetection(d))) == WebcamDisplay.DefaultColor
  {
    assert "className" !in Yolov8Inference.EmitDetection(d);
    var u := "undefined";
    forall c: ClassName ensures u != c.Name() {
      assert u[0] != c.Name()[0] || |u| != |c.Name()|;
    }
    assert u !in ClassNames by {
      assert ClassNames == [Toolbox.Name(), OxygenTank.Name(), FireExtinguisher.Name(), Other.Name()];
    }
  }

  /** With the record keyed `className`, the client reads the class the
    * detector chose, and a detection of a class gets that class's colour. */
  lemma ClassNameKeptCorrected(d: Yolov8Inference.RawDetection, c: ClassName)
    ensures ClientClassName(Yolov8Inference.EmitDetectionCorrected(d)) == d.className
    ensures d.className == c.Name() ==>
              WebcamDisplay.ColorFor(ClientClassName(Yolov8Inference.EmitDetectionCorrected(d))) == WebcamDisplay.ClassColor(c)
  {
  }

  // ---- The annotated image the client shows ----

  /** A character of the standard base64 alphabet, padding included. */
  predicate Base64Char(c: char)
  {
    ('A' <= c <= 'Z') || ('a' <= c <= 'z') || ('0' <= c <= '9') || c == '+' || c == '/' || c == '='
  }

  /** Text as the script's image encoder prints it: base64 and nothing else. */
  predicate Base64Text(s: string)
  {
    forall i :: 0 <= i < |s| ==> Base64Char(s[i])
  }

  /** Base64 text is never a data URL: its alphabet has no colon. */
  lemma Base64NotDataUrl(s: string)
    requires Base64Text(s)
    ensures !WebcamDisplay.IsDataUrl(s)
  {
    if |s| >= 5 {
      assert s[..5][4] == s[4];
    }
  }

  /** A successful response that carries a truthy annotated image. */
  predicate Annotated(e: UseDetection.Event)
  {
    e.Settled? && e.outcome.Succeeded? && Truthy(e.outcome.data.processedImage)
  }

  /** Every annotated image in some events satisfies `ok`. */
  predicate AnnotatedImagesAre(evs: seq<UseDetection.Event>, ok: string -> bool)
  {
    forall i :: 0 <= i < |evs| && Annotated(evs[i]) ==> ok(evs[i].outcome.data.processedImage.value)
  }

  predicate SomeAnnotated(evs: seq<UseDetection.Event>)
  {
    exists i :: 0 <= i < |evs| && Annotated(evs[i])
  }

  /** The image the hook ends up holding keeps any property that the image it
    * started with and every annotated image received have, and it is truthy
    * once one has been received. */
  lemma {:induction false} LastImageIs(prev: Option<string>, evs: seq<UseDetection.Event>, ok: string -> bool)
    requires AnnotatedImagesAre(evs, ok)
    requires Truthy(prev) ==> ok(prev.value)
    ensures var last := UseDetection.LastImage(prev, evs);
            Truthy(last) ==> ok(last.value)
    ensures Truthy(prev) || SomeAnnotated(evs) ==> Truthy(UseDetection.LastImage(prev, evs))
    decreases |evs|
  {
    if evs != [] {
      var rest := evs[1..];
      assert AnnotatedImagesAre(rest, ok) by {
        forall i | 0 <= i < |rest| && Annotated(rest[i])
          ensures ok(rest[i].outcome.data.processedImage.value)
        {
          assert rest[i] == evs[i + 1];
        }
      }
      if Annotated(evs[0]) {
        assert 0 <= 0 < |evs| && Annotated(evs[0]);
        LastImageIs(evs[0].outcome.data.processedImage, rest, ok);
      } else {
        if SomeAnnotated(evs) {
          var i :| 0 <= i < |evs| && Annotated(evs[i]);
          assert rest[i - 1] == evs[i];
        }
        LastImageIs(prev, rest, ok);
      }
    }
  }

  /** As written, the script prints the annotated image as bare base64 and
    * the hook stores it as it came: after the first response that carries
    * one, the hook holds an annotated image that is not a data URL. Every
    * later overlay pass then only clears the canvas and starts a decode that
    * never completes, so neither the boxes nor the image are shown again. */
  lemma AnnotatedImageNeverLoadsAsWritten(evs: seq<UseDetection.Event>)
    requires AnnotatedImagesAre(evs, Base64Text)
    requires SomeAnnotated(evs)
    ensures var image := UseDetection.Run(UseDetection.Initial, evs).final.detectionImage;
            Truthy(image) && !WebcamDisplay.IsDataUrl(image.value)
  {
    UseDetection.ResultsAreLatest(UseDetection.Initial, evs);
    LastImageIs(None, evs, Base64Text);
    Base64NotDataUrl(UseDetection.LastImage(None, evs).value);
  }

  const JpegDataUrlPrefix: string := "data:image/jpeg;base64,"

  /** The annotated image as a JPEG data URL, the form an image element loads. */
  function ProcessedImageCorrected(b64: string): (src: string)
    ensures WebcamDisplay.IsDataUrl(src)
    ensures |src| == |JpegDataUrlPrefix| + |b64| && src[|JpegDataUrlPrefix|..] == b64
  {
    JpegDataUrlPrefix + b64
  }

  /** With the annotated image sent as a data URL, the image the hook holds
    * after a response that carries one is one the overlay's decode loads. */
  lemma AnnotatedImageLoadsCorrected(evs: seq<UseDetection.Event>)
    requires AnnotatedImagesAre(evs, WebcamDisplay.IsDataUrl)
    requires SomeAnnotated(evs)
    ensures var image := UseDetection.Run(UseDetection.Initial, evs).final.detectionImage;
            Truthy(image) && WebcamDisplay.IsDataUrl(image.value)
  {
    UseDetection.ResultsAreLatest(UseDetection.Initial, evs);
    LastImageIs(None, evs, WebcamDisplay.IsDataUrl);
  }
}

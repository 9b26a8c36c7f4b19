/**
 * The camera/upload view of client/src/components/WebcamDisplay.tsx: which
 * frames reach detection, the upload handler, and the overlay pass that
 * sizes the display canvas and issues drawing commands. The drawing context
 * is a log of commands; a pass is specified by the pure plan it appends.
 */
module WebcamDisplay {
  import opened DetectionTypes
  import opened Browser
  import UseWebcam

  /** The `onFrame` callback: a captured frame reaches `onDetect` only in
    * webcam mode while detection is not paused. */
  function ForwardFrame(mode: InputMode, paused: bool, image: string): (call: Option<string>)
    ensures call.Some? <==> mode == Webcam && !paused
    ensures call.Some? ==> call.value == image
  {
    if mode == Webcam && !paused then Some(image) else None
  }

  /** The props the view hands to the camera hook. */
  function HookProps(mode: InputMode): UseWebcam.WebcamProps
  {
    UseWebcam.WebcamProps(true, Some(mode == Webcam), Some(1000), None)
  }

  /** The camera runs only in webcam mode, captures every second at the default 1280x720. */
  lemma HookConfig(mode: InputMode)
    ensures UseWebcam.ResolveProps(HookProps(mode)).enabled <==> mode == Webcam
    ensures UseWebcam.ResolveProps(HookProps(mode)).captureInterval == 1000
    ensures UseWebcam.ResolveProps(HookProps(mode)).resolution == UseWebcam.Resolution(Some(1280), Some(720))
    ensures UseWebcam.ResolveProps(HookProps(mode)).hasOnFrame
  {
  }

  datatype ImageSize = ImageSize(width: nat, height: nat)

  /** The commands the overlay pass issues to the 2D context. */
  datatype DrawOp =
    | ClearRect(width: nat, height: nat)
    | SetStrokeStyle(color: string)
    | SetLineWidth(lineWidth: nat)
    | StrokeRect(x: int, y: int, w: int, h: int)
    | SetFillStyle(color: string)
    | FillRect(x: int, y: int, fillWidth: real, h: int)
    | SetFont(font: string)
    | FillText(text: string, x: int, y: int)
    | DrawImage(source: string)

  const DefaultColor: string := "#FFFFFF"
  const LabelHeight: int := 20
  const LabelFont: string := "14px Arial"

  /** The per-class colour of the colour map. */
  function ClassColor(c: ClassName): string
  {
    match c
    case Toolbox => "#3B82F6"
    case OxygenTank => "#22C55E"
    case FireExtinguisher => "#EF4444"
    case Other => "#EAB308"
  }

  /** `colorMap[className] || "#FFFFFF"`. */
  function ColorFor(className: string): (color: string)
    ensures forall c: ClassName :: className == c.Name() ==> color == ClassColor(c)
    ensures className !in ClassNames ==> color == DefaultColor
  {
    if className == "Toolbox" then "#3B82F6"
    else if className == "Oxygen Tank" then "#22C55E"
    else if className == "Fire Extinguisher" then "#EF4444"
    else if className == "Other" then "#EAB308"
    else DefaultColor
  }

  /** The four classes get four distinct colours, none of them the default. */
  lemma ColorsDistinct(a: ClassName, b: ClassName)
    ensures ColorFor(a.Name()) != DefaultColor
    ensures ColorFor(a.Name()) == ColorFor(b.Name()) <==> a == b
  {
  }

  /** The label: the class name, followed by " NN%" when confidence is shown.
    * `percent` stands for the `toFixed(0)` rendering of a percentage. */
  function LabelText(d: Detection, showConfidence: bool, percent: real -> string): (text: string)
    ensures |text| >= |d.className| && text[..|d.className|] == d.className
    ensures !showConfidence ==> text == d.className
    ensures showConfidence ==> text[|d.className|..] == " " + percent(d.confidence * 100.0) + "%"
  {
    if showConfidence then d.className + " " + percent(d.confidence * 100.0) + "%" else d.className
  }

  /** The coloured box of one detection. */
  function BoxOps(d: Detection, color: string): (ops: seq<DrawOp>)
  {
    [SetStrokeStyle(color), SetLineWidth(2), StrokeRect(d.box.x, d.box.y, d.box.width, d.box.height)]
  }

  /** The label of one detection: its background, sized by the measured
    * text, and the text in white above the box. */
  function LabelOps(d: Detection, color: string, text: string, measure: string -> real): (ops: seq<DrawOp>)
  {
    [SetFillStyle(color),
     FillRect(d.box.x, d.box.y - LabelHeight, measure(text) + 10.0, LabelHeight),
     SetFillStyle(DefaultColor),
     SetFont(LabelFont),
     FillText(text, d.box.x + 5, d.box.y - 5)]
  }

  /** The commands for one detection: the coloured box and, when labels are
    * shown, the label background sized by the measured text and the text. */
  function DetectionOps(d: Detection, showLabels: bool, showConfidence: bool,
                        measure: string -> real, percent: real -> string): (ops: seq<DrawOp>)
    ensures |ops| == if showLabels then 8 else 3
    ensures ops[0] == SetStrokeStyle(ColorFor(d.className)) && ops[1] == SetLineWidth(2)
    ensures ops[2] == StrokeRect(d.box.x, d.box.y, d.box.width, d.box.height)
  {
    var color := ColorFor(d.className);
    if showLabels then BoxOps(d, color) + LabelOps(d, color, LabelText(d, showConfidence, percent), measure)
    else BoxOps(d, color)
  }

  /** The commands for detections in order, built as the loop does. */
  function BoxesPlan(ds: seq<Detection>, showLabels: bool, showConfidence: bool,
                     measure: string -> real, percent: real -> string): seq<DrawOp>
  {
    if ds == [] then []
    else BoxesPlan(ds[..|ds| - 1], showLabels, showConfidence, measure, percent)
         + DetectionOps(ds[|ds| - 1], showLabels, showConfidence, measure, percent)
  }

  /** The rectangles stroked by some commands, in order. */
  function StrokedRects(ops: seq<DrawOp>): seq<BoundingBox>
  {
    if ops == [] then []
    else (if ops[0].StrokeRect? then [BoundingBox(ops[0].x, ops[0].y, ops[0].w, ops[0].h)] else [])
         + StrokedRects(ops[1..])
  }

  /** The texts drawn by some commands, in order. */
  function Texts(ops: seq<DrawOp>): seq<string>
  {
    if ops == [] then []
    else (if ops[0].FillText? then [ops[0].text] else []) + Texts(ops[1..])
  }

  /** The boxes of some detections. */
  function Boxes(ds: seq<Detection>): (bs: seq<BoundingBox>)
    ensures |bs| == |ds| && forall i :: 0 <= i < |ds| ==> bs[i] == ds[i].box
  {
    if ds == [] then [] else Boxes(ds[..|ds| - 1]) + [ds[|ds| - 1].box]
  }

  /** The labels of some detections. */
  function Labels(ds: seq<Detection>, showConfidence: bool, percent: real -> string): (ls: seq<string>)
    ensures |ls| == |ds| && forall i :: 0 <= i < |ds| ==> ls[i] == LabelText(ds[i], showConfidence, percent)
  {
    if ds == [] then [] else Labels(ds[..|ds| - 1], showConfidence, percent) + [LabelText(ds[|ds| - 1], showConfidence, percent)]
  }

  lemma {:induction false} StrokedRectsAppend(a: seq<DrawOp>, b: seq<DrawOp>)
    ensures StrokedRects(a + b) == StrokedRects(a) + StrokedRects(b)
  {
    if a == [] {
      assert a + b == b;
    } else {
      assert (a + b)[0] == a[0] && (a + b)[1..] == a[1..] + b;
      var head := if a[0].StrokeRect? then [BoundingBox(a[0].x, a[0].y, a[0].w, a[0].h)] else [];
      assert StrokedRects(a + b) == head + StrokedRects(a[1..] + b);
      StrokedRectsAppend(a[1..], b);
      assert StrokedRects(a) == head + StrokedRects(a[1..]);
    }
  }

  lemma {:induction false} TextsAppend(a: seq<DrawOp>, b: seq<DrawOp>)
    ensures Texts(a + b) == Texts(a) + Texts(b)
  {
    if a == [] {
      assert a + b == b;
    } else {
      assert (a + b)[0] == a[0] && (a + b)[1..] == a[1..] + b;
      var head := if a[0].FillText? then [a[0].text] else [];
      assert Texts(a + b) == head + Texts(a[1..] + b);
      TextsAppend(a[1..], b);
      assert Texts(a) == head + Texts(a[1..]);
    }
  }

  lemma {:induction false} NoRects(ops: seq<DrawOp>)
    requires forall i :: 0 <= i < |ops| ==> !ops[i].StrokeRect?
    ensures StrokedRects(ops) == []
  {
    if ops != [] {
      NoRects(ops[1..]);
    }
  }

  lemma {:induction false} NoTexts(ops: seq<DrawOp>)
    requires forall i :: 0 <= i < |ops| ==> !ops[i].FillText?
    ensures Texts(ops) == []
  {
    if ops != [] {
      NoTexts(ops[1..]);
    }
  }

  /** The box strokes the detection's rectangle and draws no text. */
  lemma BoxOpsContent(d: Detection, color: string)
    ensures StrokedRects(BoxOps(d, color)) == [d.box]
    ensures Texts(BoxOps(d, color)) == []
  {
    var ops := BoxOps(d, color);
    NoTexts(ops);
    NoRects(ops[..2]);
    StrokedRectsAppend(ops[..2], ops[2..]);
    assert ops == ops[..2] + ops[2..];
    assert ops[2..] == [StrokeRect(d.box.x, d.box.y, d.box.width, d.box.height)];
  }

  /** The label strokes no rectangle and draws its text once. */
  lemma LabelOpsContent(d: Detection, color: string, text: string, measure: string -> real)
    ensures StrokedRects(LabelOps(d, color, text, measure)) == []
    ensures Texts(LabelOps(d, color, text, measure)) == [text]
  {
    var ops := LabelOps(d, color, text, measure);
    NoRects(ops);
    NoTexts(ops[..4]);
    TextsAppend(ops[..4], ops[4..]);
    assert ops == ops[..4] + ops[4..];
    assert ops[4..] == [FillText(text, d.box.x + 5, d.box.y - 5)];
  }

  /** One detection's commands stroke its box once and draw its label iff labels are shown. */
  lemma DetectionOpsContent(d: Detection, showLabels: bool, showConfidence: bool,
                            measure: string -> real, percent: real -> string)
    ensures StrokedRects(DetectionOps(d, showLabels, showConfidence, measure, percent)) == [d.box]
    ensures Texts(DetectionOps(d, showLabels, showConfidence, measure, percent))
            == if showLabels then [LabelText(d, showConfidence, percent)] else []
  {
    var color := ColorFor(d.className);
    BoxOpsContent(d, color);
    if showLabels {
      var text := LabelText(d, showConfidence, percent);
      LabelOpsContent(d, color, text, measure);
      StrokedRectsAppend(BoxOps(d, color), LabelOps(d, color, text, measure));
      TextsAppend(BoxOps(d, color), LabelOps(d, color, text, measure));
    }
  }

  /** Exactly one rectangle is stroked per detection, at its box, in order. */
  lemma {:induction false} OneRectPerDetection(ds: seq<Detection>, showLabels: bool, showConfidence: bool,
                                               measure: string -> real, percent: real -> string)
    ensures StrokedRects(BoxesPlan(ds, showLabels, showConfidence, measure, percent)) == Boxes(ds)
  {
    if ds != [] {
      var init := ds[..|ds| - 1];
      var d := ds[|ds| - 1];
      OneRectPerDetection(init, showLabels, showConfidence, measure, percent);
      StrokedRectsAppend(BoxesPlan(init, showLabels, showConfidence, measure, percent),
                         DetectionOps(d, showLabels, showConfidence, measure, percent));
      DetectionOpsContent(d, showLabels, showConfidence, measure, percent);
    }
  }

  /** A label is drawn for every detection when labels are shown, and none otherwise. */
  lemma {:induction false} LabelsIffShown(ds: seq<Detection>, showLabels: bool, showConfidence: bool,
                                          measure: string -> real, percent: real -> string)
    ensures Texts(BoxesPlan(ds, showLabels, showConfidence, measure, percent))
            == if showLabels then Labels(ds, showConfidence, percent) else []
  {
    if ds != [] {
      var init := ds[..|ds| - 1];
      var d := ds[|ds| - 1];
      LabelsIffShown(init, showLabels, showConfidence, measure, percent);
      TextsAppend(BoxesPlan(init, showLabels, showConfidence, measure, percent),
                  DetectionOps(d, showLabels, showConfidence, measure, percent));
      DetectionOpsContent(d, showLabels, showConfidence, measure, percent);
    }
  }

  lemma AppendAssoc(a: seq<DrawOp>, b: seq<DrawOp>, c: seq<DrawOp>)
    ensures (a + b) + c == a + (b + c)
  {
  }

  /** The commands for the first i detections, counted from the front. */
  function PlanUpTo(ds: seq<Detection>, i: nat, showLabels: bool, showConfidence: bool,
                    measure: string -> real, percent: real -> string): seq<DrawOp>
    requires i <= |ds|
  {
    if i == 0 then []
    else PlanUpTo(ds, i - 1, showLabels, showConfidence, measure, percent)
         + DetectionOps(ds[i - 1], showLabels, showConfidence, measure, percent)
  }

  lemma {:induction false} PlanUpToIsPlan(ds: seq<Detection>, i: nat, showLabels: bool, showConfidence: bool,
                                          measure: string -> real, percent: real -> string)
    requires i <= |ds|
    ensures PlanUpTo(ds, i, showLabels, showConfidence, measure, percent)
            == BoxesPlan(ds[..i], showLabels, showConfidence, measure, percent)
  {
    if i > 0 {
      PlanUpToIsPlan(ds, i - 1, showLabels, showConfidence, measure, percent);
      PlanStep(ds, i - 1, showLabels, showConfidence, measure, percent);
    }
  }

  /** The plan for the first i+1 detections extends that for the first i by the (i+1)-th's commands. */
  lemma PlanStep(ds: seq<Detection>, i: nat, showLabels: bool, showConfidence: bool,
                 measure: string -> real, percent: real -> string)
    requires i < |ds|
    ensures BoxesPlan(ds[..i + 1], showLabels, showConfidence, measure, percent)
            == BoxesPlan(ds[..i], showLabels, showConfidence, measure, percent)
               + DetectionOps(ds[i], showLabels, showConfidence, measure, percent)
  {
    assert ds[..i + 1][..i] == ds[..i];
  }

  /** Each label's background sits on top of its box: from (x, y-20), 20
    * high and 10 wider than the text, and the text is drawn inside it at (x+5, y-5). */
  lemma LabelPlacement(d: Detection, showConfidence: bool, measure: string -> real, percent: real -> string)
    ensures var ops := DetectionOps(d, true, showConfidence, measure, percent);
            var text := LabelText(d, showConfidence, percent);
            && ops[3] == SetFillStyle(ColorFor(d.className))
            && ops[4] == FillRect(d.box.x, d.box.y - 20, measure(text) + 10.0, 20)
            && ops[5] == SetFillStyle("#FFFFFF") && ops[6] == SetFont("14px Arial")
            && ops[7] == FillText(text, d.box.x + 5, d.box.y - 5)
            && ops[4].y < ops[7].y < ops[4].y + ops[4].h && ops[4].x < ops[7].x
  {
  }

  /** The canvas size for a box-drawing pass: the video's in webcam mode, the
    * uploaded image's in upload mode, otherwise the current size. */
  function SizeForPass(mode: InputMode, video: Option<ImageSize>, uploaded: Option<ImageSize>,
                       current: ImageSize): (s: ImageSize)
    ensures mode == Webcam && video.Some? ==> s == video.value
    ensures mode == Upload && uploaded.Some? ==> s == uploaded.value
    ensures (mode == Webcam && video.None?) || (mode == Upload && uploaded.None?) ==> s == current
  {
    if mode == Webcam && video.Some? then video.value
    else if mode == Upload && uploaded.Some? then uploaded.value
    else current
  }

  /** The overlay canvas is displayed when there is a detection or an annotated image. */
  predicate OverlayVisible(detections: seq<Detection>, detectionImage: Option<string>)
  {
    |detections| > 0 || Truthy(detectionImage)
  }

  /** A hidden overlay has nothing but the clear drawn on it. */
  lemma HiddenOverlayDrawsNothing(detections: seq<Detection>, detectionImage: Option<string>,
                                  showLabels: bool, showConfidence: bool,
                                  measure: string -> real, percent: real -> string)
    ensures !OverlayVisible(detections, detectionImage) ==>
              BoxesPlan(detections, showLabels, showConfidence, measure, percent) == []
              && !Truthy(detectionImage)
    ensures OverlayVisible(detections, detectionImage) && !Truthy(detectionImage) ==>
              BoxesPlan(detections, showLabels, showConfidence, measure, percent) != []
  {
  }

  /** An image source the browser decodes by itself: a `data:` URL. Any
    * other text is fetched as a path relative to the page, where the app's
    * server has no image, so the image's `onload` never runs for it. */
  predicate IsDataUrl(src: string)
  {
    |src| >= 5 && src[..5] == "data:"
  }

  /** The view's state: the uploaded file and its decoded size, the overlay
    * canvas and its context's command log, and the annotated-image decodes
    * that have been started and not yet finished. */
  class DisplayView {
    const overlay: Canvas?
    const hasContext: bool
    var uploadedFile: Option<string>
    var uploadedImage: Option<ImageSize>
    var drawn: seq<DrawOp>
    var pendingDecodes: seq<string>

    /** Decodes are only started on a canvas with a context. */
    predicate Valid()
      reads this
    {
      pendingDecodes != [] ==> overlay != null && hasContext
    }

    constructor (overlay: Canvas?, hasContext: bool)
      ensures Valid() && this.overlay == overlay && this.hasContext == hasContext
      ensures uploadedFile.None? && uploadedImage.None? && drawn == [] && pendingDecodes == []
    {
      this.overlay := overlay;
      this.hasContext := hasContext;
      uploadedFile := None;
      uploadedImage := None;
      drawn := [];
      pendingDecodes := [];
    }

    /** `handleFileUpload`, with the reader's data URL for each chosen file
      * and the decoded size of the first (None when it never decodes). No
      * file: nothing. Otherwise the first file is stored and, once decoded,
      * its size is stored and `onDetect` is called once with its data URL. */
    method HandleFileUpload(files: seq<string>, decoded: Option<ImageSize>) returns (detectCalls: seq<string>)
      modifies this
      ensures files == [] ==> detectCalls == [] && unchanged(this)
      ensures files != [] ==> uploadedFile == Some(files[0])
      ensures files != [] ==> detectCalls == (if decoded.Some? then [files[0]] else [])
      ensures files != [] ==> uploadedImage == (if decoded.Some? then decoded else old(uploadedImage))
      ensures drawn == old(drawn) && pendingDecodes == old(pendingDecodes)
    {
      detectCalls := [];
      if files == [] {
        return;
      }
      var result := files[0];
      uploadedFile := Some(result);
      if decoded.Some? {
        uploadedImage := decoded;
        detectCalls := detectCalls + [result];
      }
    }

    /** One run of the overlay effect. Without a canvas or context it does
      * nothing. Otherwise it clears; with an annotated image it starts
      * decoding it and draws nothing more now; else it sizes the canvas and
      * draws every detection's box and label. */
    method DrawOverlay(detections: seq<Detection>, detectionImage: Option<string>, mode: InputMode,
                       showLabels: bool, showConfidence: bool, video: VideoElement?,
                       measure: string -> real, percent: real -> string)
      requires Valid()
      modifies this, overlay
      ensures Valid()
      ensures uploadedFile == old(uploadedFile) && uploadedImage == old(uploadedImage)
      ensures overlay == null || !hasContext ==> unchanged(this) && (overlay != null ==> unchanged(overlay))
      ensures overlay != null && hasContext && Truthy(detectionImage) ==>
                drawn == old(drawn) + [ClearRect(old(overlay.width), old(overlay.height))]
                && pendingDecodes == old(pendingDecodes) + [detectionImage.value]
                && unchanged(overlay)
      ensures overlay != null && hasContext && !Truthy(detectionImage) ==>
                drawn == old(drawn) + [ClearRect(old(overlay.width), old(overlay.height))]
                         + BoxesPlan(detections, showLabels, showConfidence, measure, percent)
                && pendingDecodes == old(pendingDecodes)
                && ImageSize(overlay.width, overlay.height)
                   == SizeForPass(mode, if video != null then Some(ImageSize(video.videoWidth, video.videoHeight)) else None,
                                  uploadedImage, old(ImageSize(overlay.width, overlay.height)))
    {
      if overlay == null || !hasContext {
        return;
      }
      drawn := drawn + [ClearRect(overlay.width, overlay.height)];
      if Truthy(detectionImage) {
        pendingDecodes := pendingDecodes + [detectionImage.value];
        return;
      }
      SizeOverlay(mode, video);
      DrawDetections(detections, showLabels, showConfidence, measure, percent);
    }

    /** The sizing step of a box-drawing pass. */
    method SizeOverlay(mode: InputMode, video: VideoElement?)
      requires overlay != null
      modifies overlay
      ensures ImageSize(overlay.width, overlay.height)
              == SizeForPass(mode, if video != null then Some(ImageSize(video.videoWidth, video.videoHeight)) else None,
                             uploadedImage, old(ImageSize(overlay.width, overlay.height)))
    {
      if mode == Webcam && video != null {
        overlay.width := video.videoWidth;
        overlay.height := video.videoHeight;
      } else if mode == Upload && uploadedImage.Some? {
        overlay.width := uploadedImage.value.width;
        overlay.height := uploadedImage.value.height;
      }
    }

    /** The `forEach` over the detections: append each one's commands. */
    method DrawDetections(detections: seq<Detection>, showLabels: bool, showConfidence: bool,
                          measure: string -> real, percent: real -> string)
      modifies this`drawn
      ensures drawn == old(drawn) + BoxesPlan(detections, showLabels, showConfidence, measure, percent)
    {
      for i := 0 to |detections|
        invariant drawn == old(drawn) + PlanUpTo(detections, i, showLabels, showConfidence, measure, percent)
      {
        DrawDetection(detections[i], showLabels, showConfidence, measure, percent);
        AppendAssoc(old(drawn), PlanUpTo(detections, i, showLabels, showConfidence, measure, percent),
                    DetectionOps(detections[i], showLabels, showConfidence, measure, percent));
      }
      PlanUpToIsPlan(detections, |detections|, showLabels, showConfidence, measure, percent);
      assert detections[..|detections|] == detections;
    }

    /** The body of the loop over detections: one detection's box and label. */
    method DrawDetection(d: Detection, showLabels: bool, showConfidence: bool,
                         measure: string -> real, percent: real -> string)
      modifies this`drawn
      ensures drawn == old(drawn) + DetectionOps(d, showLabels, showConfidence, measure, percent)
    {
      var color := ColorFor(d.className);
      drawn := drawn + BoxOps(d, color);
      if showLabels {
        var text := LabelText(d, showConfidence, percent);
        drawn := drawn + LabelOps(d, color, text, measure);
      }
    }

    /** The `onload` of the `k`-th pending annotated-image decode, which only
      * a data URL reaches: the canvas takes the image's size and the image is drawn. No check is made that
      * the decode belongs to the latest pass. */
    method DecodeCompleted(k: nat, size: ImageSize)
      requires Valid() && k < |pendingDecodes| && IsDataUrl(pendingDecodes[k])
      modifies this, overlay
      ensures Valid()
      ensures overlay != null && overlay.width == size.width && overlay.height == size.height
      ensures drawn == old(drawn) + [DrawImage(old(pendingDecodes[k]))]
      ensures pendingDecodes == old(pendingDecodes[..k] + pendingDecodes[k + 1..])
      ensures uploadedFile == old(uploadedFile) && uploadedImage == old(uploadedImage)
    {
      overlay.width := size.width;
      overlay.height := size.height;
      drawn := drawn + [DrawImage(pendingDecodes[k])];
      pendingDecodes := pendingDecodes[..k] + pendingDecodes[k + 1..];
    }
  }

  /** The last image drawn by some commands, if any. */
  function LastDrawnImage(ops: seq<DrawOp>): (last: Option<string>)
    ensures last.Some? ==> DrawImage(last.value) in ops
    ensures last.None? ==> forall i :: 0 <= i < |ops| ==> !ops[i].DrawImage?
    ensures last.Some? ==> exists i :: 0 <= i < |ops| && ops[i] == DrawImage(last.value) && NoImageAfter(ops, i)
  {
    if ops == [] then None
    else if ops[|ops| - 1].DrawImage? then Some(ops[|ops| - 1].source)
    else
      var r := LastDrawnImage(ops[..|ops| - 1]);
      if r.Some? then NoImageAfterExtends(ops, ops[..|ops| - 1], r.value); r else r
  }

  /** A last image of all but a final non-image op is a last image of all ops. */
  lemma NoImageAfterExtends(ops: seq<DrawOp>, prefix: seq<DrawOp>, source: string)
    requires ops != [] && prefix == ops[..|ops| - 1] && !ops[|ops| - 1].DrawImage?
    requires exists i :: 0 <= i < |prefix| && prefix[i] == DrawImage(source) && NoImageAfter(prefix, i)
    ensures exists i :: 0 <= i < |ops| && ops[i] == DrawImage(source) && NoImageAfter(ops, i)
  {
    var i :| 0 <= i < |prefix| && prefix[i] == DrawImage(source) && NoImageAfter(prefix, i);
    assert ops[i] == DrawImage(source) && NoImageAfter(ops, i);
  }

  /** No image is drawn after position `i`. */
  predicate NoImageAfter(ops: seq<DrawOp>, i: nat)
  {
    forall j :: i < j < |ops| ==> !ops[j].DrawImage?
  }

  /** Two annotated images arrive in turn and the older one finishes decoding
    * last: the canvas ends up showing the older image, sized to it. */
  method StaleDecodeRepaints() returns (latest: string, shown: Option<string>, size: ImageSize)
    ensures latest == "data:b" && shown == Some("data:a") && size == ImageSize(320, 240)
  {
    var canvas := new Canvas(640, 480);
    var view := new DisplayView(canvas, true);
    var measure := (t: string) => 0.0;
    var percent := (r: real) => "";
    view.DrawOverlay([], Some("data:a"), Webcam, true, true, null, measure, percent);
    view.DrawOverlay([], Some("data:b"), Webcam, true, true, null, measure, percent);
    latest := "data:b";
    view.DecodeCompleted(1, ImageSize(1280, 720));
    view.DecodeCompleted(0, ImageSize(320, 240));
    shown := LastDrawnImage(view.drawn);
    size := ImageSize(canvas.width, canvas.height);
  }
}

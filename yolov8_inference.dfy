/**
 * The detector script of server/yolov8_inference.py: the mock detector's
 * class filter, candidate generation and confidence threshold, the image
 * source selection, the `--classes` parsing, the script's main flow and the
 * shape of each emitted detection record. The random generator is an
 * oracle: `rand(k)` is the raw value of the k-th integer draw and `unit(k)`
 * the k-th uniform draw in [0, 1). Draw 0 is the object count; object i
 * uses draws 1 + 6*i onwards for its class, width, height, x, y and
 * confidence, in that order.
 */
module Yolov8Inference {
  import opened DetectionTypes
  import opened Strings
  import PythonInference

  /** The classes the mock model recognises, in its own order. */
  const ModelClasses: seq<string> := ClassNames

  const DefaultConfThreshold: real := 0.45

  /** The position of a class name in the model's list, or the list's
    * length for a name the model does not know. */
  function ModelIndex(s: string): (i: nat)
    ensures s in ModelClasses ==> i < |ModelClasses| && ModelClasses[i] == s
    ensures s !in ModelClasses ==> i == |ModelClasses|
  {
    if s == ModelClasses[0] then 0
    else if s == ModelClasses[1] then 1
    else if s == ModelClasses[2] then 2
    else if s == ModelClasses[3] then 3
    else 4
  }

  /** Each model class sits at its own position, so the list is in model order. */
  lemma ModelClassesInOrder()
    ensures InModelOrder(ModelClasses)
  {
    assert ModelIndex(ModelClasses[0]) == 0;
    assert ModelIndex(ModelClasses[1]) == 1;
    assert ModelIndex(ModelClasses[2]) == 2;
    assert ModelIndex(ModelClasses[3]) == 3;
  }

  /** The names sit at strictly increasing positions of the model's list:
    * in model order, and none repeated. */
  predicate InModelOrder(names: seq<string>)
  {
    forall i, j :: 0 <= i < j < |names| ==> ModelIndex(names[i]) < ModelIndex(names[j])
  }

  /** `r` is `xs` with some elements dropped and the rest kept in order. */
  predicate Subsequence(r: seq<string>, xs: seq<string>)
    decreases |xs|
  {
    if r == [] then true
    else if xs == [] then false
    else if r[0] == xs[0] then Subsequence(r[1..], xs[1..])
    else Subsequence(r, xs[1..])
  }

  /** The elements of `xs` that are in `keep`, in the order of `xs`. */
  function FilterIn(xs: seq<string>, keep: seq<string>): (r: seq<string>)
    ensures |r| <= |xs|
    ensures forall s :: s in r <==> s in xs && s in keep
    ensures Subsequence(r, xs)
  {
    if xs == [] then []
    else (if xs[0] in keep then [xs[0]] + FilterIn(xs[1..], keep) else FilterIn(xs[1..], keep))
  }

  /** A subsequence of a list ordered by model position is ordered the same way. */
  lemma {:induction false} SubsequenceInModelOrder(r: seq<string>, xs: seq<string>)
    requires Subsequence(r, xs)
    requires InModelOrder(xs)
    ensures forall k :: 0 <= k < |r| ==> r[k] in xs
    ensures InModelOrder(r)
    decreases |xs|
  {
    if r != [] {
      if r[0] == xs[0] {
        SubsequenceInModelOrder(r[1..], xs[1..]);
        forall k | 0 <= k < |r| ensures r[k] in xs {
          if k > 0 { assert r[1..][k - 1] == r[k]; }
        }
        forall i, j | 0 <= i < j < |r| ensures ModelIndex(r[i]) < ModelIndex(r[j]) {
          assert r[1..][j - 1] == r[j];
          var q :| 0 <= q < |xs[1..]| && xs[1..][q] == r[j];
          assert xs[q + 1] == r[j];
          if i > 0 { assert r[1..][i - 1] == r[i]; }
        }
      } else {
        SubsequenceInModelOrder(r, xs[1..]);
      }
    }
  }

  /** Filtering by a list that holds no element leaves nothing. */
  lemma {:induction false} FilterInNone(xs: seq<string>, keep: seq<string>)
    requires forall s :: s in keep ==> s !in xs
    ensures FilterIn(xs, keep) == []
  {
    if xs != [] {
      FilterInNone(xs[1..], keep);
    }
  }

  /** Filtering by a list that holds every element changes nothing. */
  lemma {:induction false} FilterInAll(xs: seq<string>, keep: seq<string>)
    requires forall s :: s in xs ==> s in keep
    ensures FilterIn(xs, keep) == xs
  {
    if xs != [] {
      FilterInAll(xs[1..], keep);
    }
  }

  /** `available_classes`: the model classes, restricted to the filter when
    * the filter is truthy (present and non-empty). */
  function AvailableClasses(filter: Option<seq<string>>): (av: seq<string>)
    ensures filter.None? || filter.value == [] ==> av == ModelClasses
    ensures filter.Some? && filter.value != [] ==>
              forall s :: s in av <==> s in ModelClasses && s in filter.value
    ensures |av| <= |ModelClasses|
  {
    if filter.Some? && filter.value != [] then FilterIn(ModelClasses, filter.value) else ModelClasses
  }

  /** Whatever the filter, the available classes are in model order and none is repeated. */
  lemma AvailableInModelOrder(filter: Option<seq<string>>)
    ensures InModelOrder(AvailableClasses(filter))
    ensures Subsequence(AvailableClasses(filter), ModelClasses)
  {
    ModelClassesInOrder();
    if filter.Some? && filter.value != [] {
      SubsequenceInModelOrder(FilterIn(ModelClasses, filter.value), ModelClasses);
    } else {
      SubsequenceReflexive(ModelClasses);
    }
  }

  lemma {:induction false} SubsequenceReflexive(xs: seq<string>)
    ensures Subsequence(xs, xs)
    decreases |xs|
  {
    if xs != [] {
      SubsequenceReflexive(xs[1..]);
    }
  }

  /** A filter naming every model class keeps all of them, in model order. */
  lemma FullFilterKeepsAll(filter: seq<string>)
    requires forall s :: s in ModelClasses ==> s in filter
    ensures AvailableClasses(Some(filter)) == ModelClasses
  {
    assert ModelClasses[0] in filter;
    FilterInAll(ModelClasses, filter);
  }

  datatype ImageShape = ImageShape(height: nat, width: nat)

  /** A detection as the detector produces it. */
  datatype RawDetection = RawDetection(className: string, confidence: real, x: int, y: int, width: int, height: int)

  /** `numpy.random.randint` with an empty range raises `ValueError`. */
  datatype DetectError = EmptyRange

  type Unit = r: real | 0.0 <= r < 1.0

  /** `np.random.randint(lo, hi)`: a value in [lo, hi), or an error when the range is empty. */
  function RandInt(lo: int, hi: int, raw: nat): (r: Result<int, DetectError>)
    ensures r.Ok? <==> lo < hi
    ensures r.Ok? ==> lo <= r.value < hi
  {
    if hi <= lo then Err(EmptyRange) else Ok(lo + raw % (hi - lo))
  }

  /** `np.random.uniform(lo, hi)`. */
  function Uniform(lo: real, hi: real, u: Unit): real
  {
    lo + (hi - lo) * u
  }

  /** The confidence range of a class: fire extinguishers and oxygen tanks score higher. */
  function ConfidenceRange(className: string): (range: (real, real))
    ensures 0.65 <= range.0 < range.1 <= 0.97
  {
    if className == "Fire Extinguisher" then (0.85, 0.97)
    else if className == "Oxygen Tank" then (0.80, 0.95)
    else (0.65, 0.92)
  }

  /** A candidate's confidence: a uniform draw from its class's range. */
  function DrawConfidence(className: string, u: Unit): (c: real)
    ensures ConfidenceRange(className).0 <= c < ConfidenceRange(className).1
    ensures 0.65 <= c < 0.97
  {
    var range := ConfidenceRange(className);
    Uniform(range.0, range.1, u)
  }

  /** The object count: `randint(2, 6)`. */
  function NumObjects(rand: nat -> nat): (n: nat)
    ensures 2 <= n <= 5
  {
    RandInt(2, 6, rand(0)).value
  }

  /** The inputs for which a candidate cannot be drawn: no available class,
    * or an image too narrow or too low for a box-size range. */
  predicate Degenerate(shape: ImageShape, av: seq<string>)
  {
    |av| == 0 || shape.width / 3 <= shape.width / 8 || shape.height / 3 <= shape.height / 8
  }

  /** What every drawn candidate satisfies: an available class, a box inside
    * the image, and a confidence in [0.65, 0.97). */
  predicate Plausible(d: RawDetection, shape: ImageShape, av: seq<string>)
  {
    && d.className in av
    && 0 <= d.x && 0 <= d.width && d.x + d.width < shape.width
    && 0 <= d.y && 0 <= d.height && d.y + d.height < shape.height
    && 0.65 <= d.confidence < 0.97
  }

  /** The i-th candidate, before the threshold. */
  function Candidate(shape: ImageShape, av: seq<string>, rand: nat -> nat, unit: nat -> Unit, i: nat)
    : (r: Result<RawDetection, DetectError>)
    ensures r.Err? <==> Degenerate(shape, av)
    ensures r.Err? ==> r == Err(EmptyRange)
    ensures r.Ok? ==> Plausible(r.value, shape, av)
  {
    var b := 1 + 6 * i;
    var classIdx :- RandInt(0, |av|, rand(b));
    var name := av[classIdx];
    var bw :- RandInt(shape.width / 8, shape.width / 3, rand(b + 1));
    var bh :- RandInt(shape.height / 8, shape.height / 3, rand(b + 2));
    var x := RandInt(0, shape.width - bw, rand(b + 3)).value;
    var y := RandInt(0, shape.height - bh, rand(b + 4)).value;
    Ok(RawDetection(name, DrawConfidence(name, unit(b + 5)), x, y, bw, bh))
  }

  /** The results after the first k candidates: those at or above the threshold, in order. */
  function Results(shape: ImageShape, conf: real, av: seq<string>, rand: nat -> nat, unit: nat -> Unit, k: nat)
    : Result<seq<RawDetection>, DetectError>
  {
    if k == 0 then Ok([])
    else
      var prev :- Results(shape, conf, av, rand, unit, k - 1);
      var c :- Candidate(shape, av, rand, unit, k - 1);
      Ok(prev + (if c.confidence >= conf then [c] else []))
  }

  /** `MockYOLOv8.detect`, as a function of the image shape, the threshold, the filter and the draws. */
  function DetectSpec(shape: ImageShape, conf: real, filter: Option<seq<string>>, rand: nat -> nat, unit: nat -> Unit)
    : Result<seq<RawDetection>, DetectError>
  {
    Results(shape, conf, AvailableClasses(filter), rand, unit, NumObjects(rand))
  }

  /** One pass of `detect`'s loop body up to the threshold test: the class,
    * the box size, the box position and the confidence, drawn in turn. */
  method DrawCandidate(shape: ImageShape, av: seq<string>, rand: nat -> nat, unit: nat -> Unit, i: nat)
    returns (r: Result<RawDetection, DetectError>)
    ensures r == Candidate(shape, av, rand, unit, i)
  {
    var b := 1 + 6 * i;
    var classIdx :- RandInt(0, |av|, rand(b));
    var className := av[classIdx];
    var boxWidth :- RandInt(shape.width / 8, shape.width / 3, rand(b + 1));
    var boxHeight :- RandInt(shape.height / 8, shape.height / 3, rand(b + 2));
    var x := RandInt(0, shape.width - boxWidth, rand(b + 3)).value;
    var y := RandInt(0, shape.height - boxHeight, rand(b + 4)).value;
    var confidence := DrawConfidence(className, unit(b + 5));
    return Ok(RawDetection(className, confidence, x, y, boxWidth, boxHeight));
  }

  /** `detect`'s loop: draw each candidate and keep it when it reaches the threshold. */
  method Detect(shape: ImageShape, conf: real, filter: Option<seq<string>>, rand: nat -> nat, unit: nat -> Unit)
    returns (r: Result<seq<RawDetection>, DetectError>)
    ensures r == DetectSpec(shape, conf, filter, rand, unit)
  {
    var av := AvailableClasses(filter);
    var numObjects := RandInt(2, 6, rand(0)).value;
    var results := [];
    for i := 0 to numObjects
      invariant Results(shape, conf, av, rand, unit, i) == Ok(results)
    {
      var candidate := DrawCandidate(shape, av, rand, unit, i);
      if candidate.Err? {
        FailedCandidate(shape, conf, av, rand, unit, i, numObjects);
        return Err(candidate.error);
      }
      var c := candidate.value;
      KeepStep(shape, conf, av, rand, unit, i, results, c);
      if c.confidence >= conf {
        results := results + [c];
      }
    }
    r := Ok(results);
  }

  /** One pass of the loop: a candidate is appended iff it reaches the threshold. */
  lemma KeepStep(shape: ImageShape, conf: real, av: seq<string>, rand: nat -> nat, unit: nat -> Unit,
                 k: nat, results: seq<RawDetection>, c: RawDetection)
    requires Results(shape, conf, av, rand, unit, k) == Ok(results)
    requires Candidate(shape, av, rand, unit, k) == Ok(c)
    ensures Results(shape, conf, av, rand, unit, k + 1) == Ok(if c.confidence >= conf then results + [c] else results)
  {
    ResultsStep(shape, conf, av, rand, unit, k);
    assert results + [] == results;
  }

  lemma ResultsStep(shape: ImageShape, conf: real, av: seq<string>, rand: nat -> nat, unit: nat -> Unit, k: nat)
    requires Results(shape, conf, av, rand, unit, k).Ok? && Candidate(shape, av, rand, unit, k).Ok?
    ensures var c := Candidate(shape, av, rand, unit, k).value;
            Results(shape, conf, av, rand, unit, k + 1)
            == Ok(Results(shape, conf, av, rand, unit, k).value + if c.confidence >= conf then [c] else [])
  {
  }

  lemma FailedCandidate(shape: ImageShape, conf: real, av: seq<string>, rand: nat -> nat, unit: nat -> Unit, k: nat, n: nat)
    requires k < n && Candidate(shape, av, rand, unit, k).Err?
    ensures Results(shape, conf, av, rand, unit, n) == Err(EmptyRange)
    ensures Candidate(shape, av, rand, unit, k) == Err(EmptyRange)
  {
    ResultsFacts(shape, conf, av, rand, unit, n);
  }

  /** The facts the loop keeps: the results fail exactly on degenerate
    * inputs, hold at most one detection per candidate, each plausible and at
    * or above the threshold, and a threshold of at most 0.65 drops nothing. */
  lemma {:induction false} ResultsFacts(shape: ImageShape, conf: real, av: seq<string>,
                                        rand: nat -> nat, unit: nat -> Unit, k: nat)
    ensures Results(shape, conf, av, rand, unit, k).Err? <==> k > 0 && Degenerate(shape, av)
    ensures Results(shape, conf, av, rand, unit, k).Err? ==> Results(shape, conf, av, rand, unit, k) == Err(EmptyRange)
    ensures Results(shape, conf, av, rand, unit, k).Ok? ==>
              var ds := Results(shape, conf, av, rand, unit, k).value;
              && |ds| <= k
              && (forall d :: d in ds ==> Plausible(d, shape, av) && d.confidence >= conf)
              && (conf <= 0.65 ==> |ds| == k)
  {
    if k > 0 {
      ResultsFacts(shape, conf, av, rand, unit, k - 1);
    }
  }

  /** A box-size range is empty exactly when the side is below 3 pixels. */
  lemma SizeRangeNonEmpty(side: nat)
    ensures side / 8 < side / 3 <==> side >= 3
  {
    if side >= 3 {
      var q := side / 8;
      assert 8 * q <= side;
      assert 3 * (side / 3) >= side - 2;
      if q == 0 {
        assert side / 3 >= 1;
      } else {
        assert 3 * (side / 3) > 3 * q;
      }
    }
  }

  /** `detect` raises exactly when no class is available or the image is
    * narrower or lower than 3 pixels; in particular a filter naming no model
    * class raises rather than returning no detections. */
  lemma DetectErrorIff(shape: ImageShape, conf: real, filter: Option<seq<string>>, rand: nat -> nat, unit: nat -> Unit)
    ensures DetectSpec(shape, conf, filter, rand, unit).Err? <==>
              AvailableClasses(filter) == [] || shape.width < 3 || shape.height < 3
    ensures filter.Some? && filter.value != [] && (forall s :: s in filter.value ==> s !in ModelClasses) ==>
              DetectSpec(shape, conf, filter, rand, unit).Err?
  {
    ResultsFacts(shape, conf, AvailableClasses(filter), rand, unit, NumObjects(rand));
    SizeRangeNonEmpty(shape.width);
    SizeRangeNonEmpty(shape.height);
    if filter.Some? && filter.value != [] && (forall s :: s in filter.value ==> s !in ModelClasses) {
      FilterInNone(ModelClasses, filter.value);
    }
  }

  /** Every returned detection is of an available class, reaches the
    * threshold and lies inside the image, and there are at most five. */
  lemma DetectOutput(shape: ImageShape, conf: real, filter: Option<seq<string>>, rand: nat -> nat, unit: nat -> Unit)
    ensures DetectSpec(shape, conf, filter, rand, unit).Ok? ==>
              var ds := DetectSpec(shape, conf, filter, rand, unit).value;
              && |ds| <= 5
              && forall d :: d in ds ==>
                   && d.className in AvailableClasses(filter)
                   && d.confidence >= conf
                   && 0 <= d.x && d.x + d.width < shape.width
                   && 0 <= d.y && d.y + d.height < shape.height
  {
    ResultsFacts(shape, conf, AvailableClasses(filter), rand, unit, NumObjects(rand));
  }

  /** With a threshold of at most 0.65 no candidate is dropped. */
  lemma LowThresholdKeepsAll(shape: ImageShape, conf: real, filter: Option<seq<string>>, rand: nat -> nat, unit: nat -> Unit)
    requires conf <= 0.65
    ensures DetectSpec(shape, conf, filter, rand, unit).Ok? ==>
              |DetectSpec(shape, conf, filter, rand, unit).value| == NumObjects(rand)
  {
    ResultsFacts(shape, conf, AvailableClasses(filter), rand, unit, NumObjects(rand));
  }

  // ---- Image source and arguments ----

  datatype ImageSource = FromFile(path: string) | FromBase64(data: string)

  datatype ScriptError =
    | ImageNotFound(path: string)
    | NoImageSource
    | UndecodableImage
    | DetectFailed(cause: DetectError)

  /** `read_image`: a truthy path wins, and fails when the file is missing;
    * otherwise truthy base64 data; otherwise an error. */
  function ReadImage(imagePath: Option<string>, base64Data: Option<string>, fileExists: string -> bool)
    : (r: Result<ImageSource, ScriptError>)
    ensures Truthy(imagePath) && fileExists(imagePath.value) ==> r == Ok(FromFile(imagePath.value))
    ensures Truthy(imagePath) && !fileExists(imagePath.value) ==> r == Err(ImageNotFound(imagePath.value))
    ensures !Truthy(imagePath) && Truthy(base64Data) ==> r == Ok(FromBase64(base64Data.value))
    ensures r == Err(NoImageSource) <==> !Truthy(imagePath) && !Truthy(base64Data)
  {
    if Truthy(imagePath) then
      if fileExists(imagePath.value) then Ok(FromFile(imagePath.value)) else Err(ImageNotFound(imagePath.value))
    else if Truthy(base64Data) then Ok(FromBase64(base64Data.value))
    else Err(NoImageSource)
  }

  /** The class filter of `main`: the comma split of a truthy `--classes`, else none. */
  function ClassFilter(classes: Option<string>): (filter: Option<seq<string>>)
    ensures filter.Some? <==> Truthy(classes)
    ensures filter.Some? ==> filter.value == Split(classes.value, ',') && |filter.value| >= 1
  {
    if Truthy(classes) then Some(Split(classes.value, ',')) else None
  }

  /** A joined list of comma-free names that is not just one empty name comes
    * back from the filter unchanged. */
  lemma ClassFilterRoundTrip(names: seq<string>)
    requires |names| >= 1 && names != [""]
    requires forall i :: 0 <= i < |names| ==> ',' !in names[i]
    ensures ClassFilter(Some(Join(names, ','))) == Some(names)
  {
    JoinEmpty(names, ',');
    SplitJoin(names, ',');
  }

  /** The threshold: the parsed text of `--conf-threshold`, or 0.45; None when
    * the text is not a float. `parseFloat` stands for Python's `float`. */
  function ConfThreshold(text: Option<string>, parseFloat: string -> Option<real>): (t: Option<real>)
    ensures text.None? ==> t == Some(DefaultConfThreshold)
    ensures text.Some? ==> t == parseFloat(text.value)
  {
    if text.None? then Some(DefaultConfThreshold) else parseFloat(text.value)
  }

  /** How a run of the script ends. */
  datatype ScriptOutcome =
    | Printed(detections: seq<RawDetection>, sessionId: string)
    | Raised(error: ScriptError)
    | UsageError

  /** The exit status: 0 after printing, 1 after an error, 2 for bad arguments. */
  function ExitCode(o: ScriptOutcome): (code: int)
    ensures code == 0 <==> o.Printed?
  {
    match o
    case Printed(_, _) => 0
    case Raised(_) => 1
    case UsageError => 2
  }

  /** `main` over the arguments after the script name and the stripped stdin.
    * `decode` stands for reading the image with OpenCV (None when it yields
    * no image). */
  function RunMain(argv: seq<string>, stdinText: string, fileExists: string -> bool,
                   decode: ImageSource -> Option<ImageShape>, parseFloat: string -> Option<real>,
                   rand: nat -> nat, unit: nat -> Unit): (o: ScriptOutcome)
    ensures o.Printed? ==> PythonInference.ParseArgs(argv).Ok?
                           && Some(o.sessionId) == PythonInference.ParseArgs(argv).value.sessionId
  {
    match PythonInference.ParseArgs(argv)
    case Err(_) => UsageError
    case Ok(args) => RunParsed(args, stdinText, fileExists, decode, parseFloat, rand, unit)
  }

  /** `main` after `parse_args` has succeeded. */
  function RunParsed(args: PythonInference.ParsedArgs, stdinText: string, fileExists: string -> bool,
                     decode: ImageSource -> Option<ImageShape>, parseFloat: string -> Option<real>,
                     rand: nat -> nat, unit: nat -> Unit): (o: ScriptOutcome)
    requires args.sessionId.Some?
    ensures o.Printed? ==> Some(o.sessionId) == args.sessionId
  {
    match ConfThreshold(args.confThreshold, parseFloat)
    case None => UsageError
    case Some(conf) =>
      var base64Data := if args.base64Stdin then Some(stdinText) else None;
      var filter := ClassFilter(args.classes);
      match ReadImage(args.imagePath, base64Data, fileExists)
      case Err(e) => Raised(e)
      case Ok(source) =>
        match decode(source)
        case None => Raised(UndecodableImage)
        case Some(shape) =>
          match DetectSpec(shape, conf, filter, rand, unit)
          case Err(e) => Raised(DetectFailed(e))
          case Ok(ds) => Printed(ds, args.sessionId.value)
  }

  // ---- The emitted detection record ----

  datatype Json = JStr(s: string) | JNum(r: real) | JInt(i: int) | JObj(fields: map<string, Json>)

  function BoxRecord(d: RawDetection): map<string, Json>
  {
    map["x" := JInt(d.x), "y" := JInt(d.y), "width" := JInt(d.width), "height" := JInt(d.height)]
  }

  /** The record appended for a kept detection, keyed as the script writes it. */
  function EmitDetection(d: RawDetection): (rec: map<string, Json>)
    ensures rec.Keys == {"class_name", "confidence", "box"}
    ensures rec["class_name"] == JStr(d.className)
  {
    map["class_name" := JStr(d.className), "confidence" := JNum(d.confidence), "box" := JObj(BoxRecord(d))]
  }

  /** The record keyed as the response schema and the client expect. */
  function EmitDetectionCorrected(d: RawDetection): (rec: map<string, Json>)
    ensures rec.Keys == {"className", "confidence", "box"}
    ensures rec["className"] == JStr(d.className)
  {
    map["className" := JStr(d.className), "confidence" := JNum(d.confidence), "box" := JObj(BoxRecord(d))]
  }
}

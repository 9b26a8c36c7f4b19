/**
 * The server's bridge to the detector script (server/python_inference.ts):
 * the argument vector built by successive pushes, the stdin payload, the
 * accumulation of the child's output and the exit-code/parse decision. The
 * script's own argument parser (the argparse set-up of
 * server/yolov8_inference.py) is modelled here too, so that the argument
 * vector can be shown to parse back to the options it was built from.
 */
module PythonInference {
  import opened DetectionTypes
  import opened Strings

  /** The options of one detection call; absent fields are `undefined`. */
  datatype DetectionOptions = DetectionOptions(
    imagePath: Option<string>,
    base64Image: Option<string>,
    sessionId: string,
    confidenceThreshold: Option<real>,
    classes: Option<seq<string>>)

  /** `path.join(cwd, "server", "yolov8_inference.py")`, without normalisation. */
  function ScriptPath(cwd: string): (p: string)
    ensures |p| > |cwd| && p[..|cwd|] == cwd
  {
    cwd + "/server/yolov8_inference.py"
  }

  function ImageSegment(o: DetectionOptions): seq<string>
  {
    if Truthy(o.imagePath) then ["--image-path", o.imagePath.value] else []
  }

  function StdinSegment(o: DetectionOptions): seq<string>
  {
    if Truthy(o.base64Image) then ["--base64-stdin"] else []
  }

  function ConfSegment(o: DetectionOptions, formatNumber: real -> string): seq<string>
  {
    if o.confidenceThreshold.Some? then ["--conf-threshold", formatNumber(o.confidenceThreshold.value)] else []
  }

  function ClassesSegment(o: DetectionOptions): seq<string>
  {
    if o.classes.Some? && |o.classes.value| > 0 then ["--classes", Join(o.classes.value, ',')] else []
  }

  /** The argument vector: the script, the session id, then the optional flags
    * in the fixed order image path, stdin, threshold, classes. `formatNumber`
    * stands for `Number.prototype.toString`. */
  function ArgVector(o: DetectionOptions, scriptPath: string, formatNumber: real -> string): (args: seq<string>)
    ensures |args| >= 3 && args[..3] == [scriptPath, "--session-id", o.sessionId]
    ensures |args| <= 10
  {
    [scriptPath, "--session-id", o.sessionId]
      + ImageSegment(o) + StdinSegment(o) + ConfSegment(o, formatNumber) + ClassesSegment(o)
  }

  /** What is written to the child's stdin: the base64 payload iff it is truthy. */
  function StdinPayload(o: DetectionOptions): (payload: Option<string>)
    ensures payload.Some? <==> Truthy(o.base64Image)
    ensures payload.Some? ==> payload == o.base64Image
  {
    if Truthy(o.base64Image) then o.base64Image else None
  }

  /** Builds the argument vector by successive pushes, and the stdin payload. */
  method BuildArgs(o: DetectionOptions, scriptPath: string, formatNumber: real -> string)
    returns (args: seq<string>, stdin: Option<string>)
    ensures args == ArgVector(o, scriptPath, formatNumber)
    ensures stdin == StdinPayload(o)
  {
    args := [scriptPath, "--session-id", o.sessionId];
    if Truthy(o.imagePath) {
      args := args + ["--image-path", o.imagePath.value];
    }
    if Truthy(o.base64Image) {
      args := args + ["--base64-stdin"];
    }
    if o.confidenceThreshold.Some? {
      args := args + ["--conf-threshold", formatNumber(o.confidenceThreshold.value)];
    }
    if o.classes.Some? && |o.classes.value| > 0 {
      args := args + ["--classes", Join(o.classes.value, ',')];
    }
    stdin := if Truthy(o.base64Image) then o.base64Image else None;
  }

  // ---- The script's argument parser ----

  predicate AllDigits(s: string)
  {
    forall i :: 0 <= i < |s| ==> '0' <= s[i] <= '9'
  }

  /** argparse's negative-number pattern: `-` followed by digits, or by
    * optional digits, a point and digits. */
  predicate NegativeNumberLike(s: string)
  {
    |s| >= 2 && s[0] == '-' &&
    ((AllDigits(s[1..])) ||
     (exists k | 1 <= k < |s| - 1 :: s[k] == '.' && AllDigits(s[1..k]) && AllDigits(s[k + 1..])))
  }

  /** A token argparse takes for an option rather than a value. */
  predicate OptionLike(s: string)
  {
    |s| >= 2 && s[0] == '-' && !NegativeNumberLike(s) && ' ' !in s
  }

  /** The parsed namespace; the threshold is kept as its text. */
  datatype ParsedArgs = ParsedArgs(
    imagePath: Option<string>,
    base64Stdin: bool,
    sessionId: Option<string>,
    confThreshold: Option<string>,
    classes: Option<string>)

  const NoArgs: ParsedArgs := ParsedArgs(None, false, None, None, None)

  datatype ArgError = ExpectedValue(flag: string) | Unrecognized(token: string) | MissingSessionId

  const ValueFlags: set<string> := {"--image-path", "--session-id", "--conf-threshold", "--classes"}

  /** Stores the value of a value-taking flag; a repeated flag keeps the last value. */
  function SetFlag(acc: ParsedArgs, flag: string, value: string): (r: ParsedArgs)
    requires flag in ValueFlags
    ensures flag == "--image-path" ==> r == acc.(imagePath := Some(value))
    ensures flag == "--session-id" ==> r == acc.(sessionId := Some(value))
    ensures flag == "--conf-threshold" ==> r == acc.(confThreshold := Some(value))
    ensures flag == "--classes" ==> r == acc.(classes := Some(value))
  {
    if flag == "--image-path" then acc.(imagePath := Some(value))
    else if flag == "--session-id" then acc.(sessionId := Some(value))
    else if flag == "--conf-threshold" then acc.(confThreshold := Some(value))
    else acc.(classes := Some(value))
  }

  function ParseTokens(tokens: seq<string>, acc: ParsedArgs): Result<ParsedArgs, ArgError>
    decreases |tokens|
  {
    if tokens == [] then Ok(acc)
    else if tokens[0] == "--base64-stdin" then ParseTokens(tokens[1..], acc.(base64Stdin := true))
    else if tokens[0] in ValueFlags then
      if |tokens| < 2 || OptionLike(tokens[1]) then Err(ExpectedValue(tokens[0]))
      else ParseTokens(tokens[2..], SetFlag(acc, tokens[0], tokens[1]))
    else Err(Unrecognized(tokens[0]))
  }

  /** `parser.parse_args()` over the arguments after the script name: the
    * five options of the script, `--session-id` required. */
  function ParseArgs(tokens: seq<string>): (r: Result<ParsedArgs, ArgError>)
    ensures r.Ok? ==> r.value.sessionId.Some?
    ensures ParseTokens(tokens, NoArgs).Ok? && ParseTokens(tokens, NoArgs).value.sessionId.None? ==> r == Err(MissingSessionId)
    ensures ParseTokens(tokens, NoArgs).Err? ==> r == ParseTokens(tokens, NoArgs)
  {
    match ParseTokens(tokens, NoArgs)
    case Err(e) => Err(e)
    case Ok(p) => if p.sessionId.None? then Err(MissingSessionId) else Ok(p)
  }

  lemma ParseValueFlag(flag: string, value: string, rest: seq<string>, acc: ParsedArgs)
    requires flag in ValueFlags && !OptionLike(value)
    ensures ParseTokens([flag, value] + rest, acc) == ParseTokens(rest, SetFlag(acc, flag, value))
  {
    assert ([flag, value] + rest)[2..] == rest;
  }

  lemma ParseSwitch(rest: seq<string>, acc: ParsedArgs)
    ensures ParseTokens(["--base64-stdin"] + rest, acc) == ParseTokens(rest, acc.(base64Stdin := true))
  {
    assert (["--base64-stdin"] + rest)[1..] == rest;
  }

  /** What the script reads back from an argument vector built from `o`. */
  function Expected(o: DetectionOptions, formatNumber: real -> string): ParsedArgs
  {
    ParsedArgs(
      if Truthy(o.imagePath) then o.imagePath else None,
      Truthy(o.base64Image),
      Some(o.sessionId),
      if o.confidenceThreshold.Some? then Some(formatNumber(o.confidenceThreshold.value)) else None,
      if o.classes.Some? && |o.classes.value| > 0 then Some(Join(o.classes.value, ',')) else None)
  }

  /** The values argparse would not mistake for options. */
  predicate PlainValues(o: DetectionOptions, formatNumber: real -> string)
  {
    && !OptionLike(o.sessionId)
    && (Truthy(o.imagePath) ==> !OptionLike(o.imagePath.value))
    && (o.confidenceThreshold.Some? ==> !OptionLike(formatNumber(o.confidenceThreshold.value)))
    && (o.classes.Some? && |o.classes.value| > 0 ==> !OptionLike(Join(o.classes.value, ',')))
  }

  /** The image-path segment parses to the truthy path. */
  lemma ImageSegmentParses(o: DetectionOptions, rest: seq<string>, acc: ParsedArgs)
    requires Truthy(o.imagePath) ==> !OptionLike(o.imagePath.value)
    ensures ParseTokens(ImageSegment(o) + rest, acc)
            == ParseTokens(rest, if Truthy(o.imagePath) then acc.(imagePath := o.imagePath) else acc)
  {
    if Truthy(o.imagePath) {
      ParseValueFlag("--image-path", o.imagePath.value, rest, acc);
    } else {
      assert ImageSegment(o) + rest == rest;
    }
  }

  /** The stdin segment parses to the switch iff the payload is truthy. */
  lemma StdinSegmentParses(o: DetectionOptions, rest: seq<string>, acc: ParsedArgs)
    ensures ParseTokens(StdinSegment(o) + rest, acc)
            == ParseTokens(rest, if Truthy(o.base64Image) then acc.(base64Stdin := true) else acc)
  {
    if Truthy(o.base64Image) {
      ParseSwitch(rest, acc);
    } else {
      assert StdinSegment(o) + rest == rest;
    }
  }

  /** The threshold segment parses to the threshold's text. */
  lemma ConfSegmentParses(o: DetectionOptions, formatNumber: real -> string, rest: seq<string>, acc: ParsedArgs)
    requires o.confidenceThreshold.Some? ==> !OptionLike(formatNumber(o.confidenceThreshold.value))
    ensures ParseTokens(ConfSegment(o, formatNumber) + rest, acc)
            == ParseTokens(rest, if o.confidenceThreshold.Some?
                                 then acc.(confThreshold := Some(formatNumber(o.confidenceThreshold.value)))
                                 else acc)
  {
    if o.confidenceThreshold.Some? {
      ParseValueFlag("--conf-threshold", formatNumber(o.confidenceThreshold.value), rest, acc);
    } else {
      assert ConfSegment(o, formatNumber) + rest == rest;
    }
  }

  /** The classes segment, last on the line, parses to the joined list. */
  lemma ClassesSegmentParses(o: DetectionOptions, acc: ParsedArgs)
    requires o.classes.Some? && |o.classes.value| > 0 ==> !OptionLike(Join(o.classes.value, ','))
    ensures ParseTokens(ClassesSegment(o), acc)
            == Ok(if o.classes.Some? && |o.classes.value| > 0 then acc.(classes := Some(Join(o.classes.value, ','))) else acc)
  {
    if o.classes.Some? && |o.classes.value| > 0 {
      ParseValueFlag("--classes", Join(o.classes.value, ','), [], acc);
      assert ClassesSegment(o) == ["--classes", Join(o.classes.value, ',')] + [];
    }
  }

  /** The arguments after the script name, grouped from the right. */
  lemma ArgTail(o: DetectionOptions, scriptPath: string, formatNumber: real -> string)
    ensures ArgVector(o, scriptPath, formatNumber)[1..]
            == ["--session-id", o.sessionId] + (ImageSegment(o) + (StdinSegment(o) + (ConfSegment(o, formatNumber) + ClassesSegment(o))))
  {
    var head: seq<string> := [scriptPath, "--session-id", o.sessionId];
    var tail := ImageSegment(o) + (StdinSegment(o) + (ConfSegment(o, formatNumber) + ClassesSegment(o)));
    assert ArgVector(o, scriptPath, formatNumber) == head + tail;
    assert (head + tail)[1..] == ["--session-id", o.sessionId] + tail;
  }

  /** The script parses the argument vector back to the options it was built
    * from: the session id, the image path iff truthy, the stdin switch iff
    * the payload is truthy, the threshold text iff defined, and the joined
    * class list iff non-empty. */
  lemma ArgsRoundTrip(o: DetectionOptions, scriptPath: string, formatNumber: real -> string)
    requires PlainValues(o, formatNumber)
    ensures ParseArgs(ArgVector(o, scriptPath, formatNumber)[1..]) == Ok(Expected(o, formatNumber))
  {
    var img := ImageSegment(o);
    var sw := StdinSegment(o);
    var conf := ConfSegment(o, formatNumber);
    var cls := ClassesSegment(o);
    var a0 := NoArgs.(sessionId := Some(o.sessionId));
    var a1 := if Truthy(o.imagePath) then a0.(imagePath := o.imagePath) else a0;
    var a2 := if Truthy(o.base64Image) then a1.(base64Stdin := true) else a1;
    var a3 := if o.confidenceThreshold.Some? then a2.(confThreshold := Some(formatNumber(o.confidenceThreshold.value))) else a2;
    var a4 := if o.classes.Some? && |o.classes.value| > 0 then a3.(classes := Some(Join(o.classes.value, ','))) else a3;
    ArgTail(o, scriptPath, formatNumber);
    ParseValueFlag("--session-id", o.sessionId, img + (sw + (conf + cls)), NoArgs);
    ImageSegmentParses(o, sw + (conf + cls), a0);
    StdinSegmentParses(o, conf + cls, a1);
    ConfSegmentParses(o, formatNumber, cls, a2);
    ClassesSegmentParses(o, a3);
    assert a4 == Expected(o, formatNumber);
  }

  // ---- Running the script ----

  datatype InferenceError =
    | ScriptNotFound(path: string)
    | ExitedWithError(code: Option<int>, stderr: string)
    | UnparsableOutput(stdout: string)

  /** The child as it ran: its output chunks and its exit code (None when it
    * was ended by a signal). */
  datatype ProcessRun = ProcessRun(stdoutChunks: seq<string>, stderrChunks: seq<string>, exitCode: Option<int>)

  datatype Invocation = Invocation(args: seq<string>, stdin: Option<string>)

  /** The chunks of a stream, in order. */
  function Concat(chunks: seq<string>): (s: string)
    ensures |chunks| == 1 ==> s == chunks[0]
    ensures chunks == [] ==> s == ""
  {
    if chunks == [] then "" else Concat(chunks[..|chunks| - 1]) + chunks[|chunks| - 1]
  }

  /** The `close` handler: any code other than 0 rejects with the error
    * output; exit 0 with unparsable output rejects; otherwise resolve.
    * `parse` stands for `JSON.parse` into the response shape. */
  function CloseOutcome(code: Option<int>, stdout: string, stderr: string,
                        parse: string -> Option<DetectionResponse>): (r: Result<DetectionResponse, InferenceError>)
    ensures r.Ok? <==> code == Some(0) && parse(stdout).Some?
    ensures r.Ok? ==> Some(r.value) == parse(stdout)
    ensures code != Some(0) ==> r == Err(ExitedWithError(code, stderr))
    ensures code == Some(0) && parse(stdout).None? ==> r == Err(UnparsableOutput(stdout))
  {
    if code != Some(0) then Err(ExitedWithError(code, stderr))
    else match parse(stdout)
      case None => Err(UnparsableOutput(stdout))
      case Some(response) => Ok(response)
  }

  /** Accumulates one output stream chunk by chunk, as the `data` handlers do. */
  method Accumulate(chunks: seq<string>) returns (data: string)
    ensures data == Concat(chunks)
  {
    data := "";
    var i := 0;
    while i < |chunks|
      invariant 0 <= i <= |chunks|
      invariant data == Concat(chunks[..i])
    {
      assert chunks[..i + 1][..i] == chunks[..i];
      data := data + chunks[i];
      i := i + 1;
    }
    assert chunks[..|chunks|] == chunks;
  }

  /** `detectObjects`: a missing script rejects before anything is spawned;
    * otherwise the child is started with the argument vector and the stdin
    * payload, its output is accumulated, and the close handler decides. */
  method DetectObjects(o: DetectionOptions, cwd: string, fileExists: string -> bool,
                       formatNumber: real -> string, run: ProcessRun,
                       parse: string -> Option<DetectionResponse>)
    returns (spawned: Option<Invocation>, result: Result<DetectionResponse, InferenceError>)
    ensures !fileExists(ScriptPath(cwd)) ==> spawned.None? && result == Err(ScriptNotFound(ScriptPath(cwd)))
    ensures fileExists(ScriptPath(cwd)) ==>
              spawned == Some(Invocation(ArgVector(o, ScriptPath(cwd), formatNumber), StdinPayload(o)))
              && result == CloseOutcome(run.exitCode, Concat(run.stdoutChunks), Concat(run.stderrChunks), parse)
    ensures result.Ok? ==> spawned.Some? && run.exitCode == Some(0)
  {
    var scriptPath := ScriptPath(cwd);
    if !fileExists(scriptPath) {
      return None, Err(ScriptNotFound(scriptPath));
    }
    var args, stdin := BuildArgs(o, scriptPath, formatNumber);
    spawned := Some(Invocation(args, stdin));
    var outputData := Accumulate(run.stdoutChunks);
    var errorData := Accumulate(run.stderrChunks);
    result := CloseOutcome(run.exitCode, outputData, errorData, parse);
  }
}

/**
 * Shared value types of the detection client and server: the shapes of
 * client/src/types/detection.ts and the response schemas of shared/schema.ts.
 */
module DetectionTypes {

  datatype Option<+T> = None | Some(value: T)

  datatype Result<+T, +E> = Ok(value: T) | Err(error: E)
  {
    predicate IsFailure() { Err? }

    function PropagateFailure<U>(): Result<U, E>
      requires Err?
    {
      Err(error)
    }

    function Extract(): T
      requires Ok?
    {
      value
    }
  }

  /** JavaScript/Python truthiness of an optional string: absent and "" are both false. */
  predicate Truthy(s: Option<string>)
  {
    s.Some? && s.value != ""
  }

  /** The four object classes, as the keys of the enabled-class record. */
  datatype ClassName = Toolbox | OxygenTank | FireExtinguisher | Other
  {
    /** The label the client and the detector use for the class. */
    function Name(): (s: string)
      ensures s != "" && ',' !in s && '-' !in s
    {
      match this
      case Toolbox => "Toolbox"
      case OxygenTank => "Oxygen Tank"
      case FireExtinguisher => "Fire Extinguisher"
      case Other => "Other"
    }

    /** The class's position in the record's key order. */
    function Index(): (i: nat)
      ensures i < |AllClasses| && AllClasses[i] == this
    {
      match this
      case Toolbox => 0
      case OxygenTank => 1
      case FireExtinguisher => 2
      case Other => 3
    }
  }

  /** The record's key order, which is also the detector's class order. */
  const AllClasses: seq<ClassName> := [Toolbox, OxygenTank, FireExtinguisher, Other]

  /** The detector's class list, by name. */
  const ClassNames: seq<string> := ["Toolbox", "Oxygen Tank", "Fire Extinguisher", "Other"]

  /** The names of some classes, in the same order. */
  function Names(cs: seq<ClassName>): (names: seq<string>)
    ensures |names| == |cs|
    ensures forall i :: 0 <= i < |cs| ==> names[i] == cs[i].Name()
  {
    if cs == [] then [] else [cs[0].Name()] + Names(cs[1..])
  }

  /** A class's name is among some classes' names exactly when the class is among them. */
  lemma NamesMembership(cs: seq<ClassName>, c: ClassName)
    ensures c.Name() in Names(cs) <==> c in cs
  {
    if c.Name() in Names(cs) {
      var i :| 0 <= i < |cs| && Names(cs)[i] == c.Name();
      NameInjective(c, cs[i]);
    }
  }

  /** Distinct classes have distinct names, so a name identifies its class. */
  lemma NameInjective(a: ClassName, b: ClassName)
    ensures a.Name() == b.Name() <==> a == b
  {
    if a != b {
      assert a.Name()[0] != b.Name()[0] || |a.Name()| != |b.Name()|;
    }
  }

  datatype BoundingBox = BoundingBox(x: int, y: int, width: int, height: int)

  datatype Detection = Detection(className: string, confidence: real, box: BoundingBox)

  /** A response of the detection service; `detections` is always present. */
  datatype DetectionResponse = DetectionResponse(
    detections: seq<Detection>,
    processedImage: Option<string>,
    processingTime: Option<real>,
    sessionId: string)

  datatype Speed = Balanced | Fast | Precision

  /** The enabled-class record, one flag per class in key order. */
  datatype EnabledClasses = EnabledClasses(toolbox: bool, oxygenTank: bool, fireExtinguisher: bool, other: bool)
  {
    function Get(c: ClassName): bool
    {
      match c
      case Toolbox => toolbox
      case OxygenTank => oxygenTank
      case FireExtinguisher => fireExtinguisher
      case Other => other
    }
  }

  datatype DetectionSettings = DetectionSettings(
    detectionSpeed: Speed,
    showLabels: bool,
    showConfidence: bool,
    enabledClasses: EnabledClasses)

  /** `Partial<DetectionSettings>`: a field is present or absent. */
  datatype PartialSettings = PartialSettings(
    detectionSpeed: Option<Speed>,
    showLabels: Option<bool>,
    showConfidence: Option<bool>,
    enabledClasses: Option<EnabledClasses>)

  const EmptyPartial: PartialSettings := PartialSettings(None, None, None, None)

  datatype InputMode = Webcam | Upload

  /** The application settings edited in the settings dialog. */
  datatype AppSettings = AppSettings(
    modelVersion: string,
    apiEndpoint: string,
    videoResolution: string,
    enableAudioAlerts: bool,
    autoDetectObjects: bool)

  datatype SafetyAlert = SafetyAlert(alertType: string, message: string, level: string)
}

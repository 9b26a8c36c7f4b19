/**
 * The detection request lifecycle of client/src/hooks/useDetection.ts:
 * session initialisation, dispatch of a frame with the in-flight and pause
 * gates, settlement of a request on every exit path, and the pause toggle.
 *
 * Each asynchronous step is one atomic transition. The pure functions
 * below are the transitions; `DetectionHook` is the hook's state updated
 * by them in place; `Run` replays a sequence of events, and the lemmas at
 * the end state what holds over every replay.
 */
module UseDetection {
  import opened DetectionTypes

  /** A `crypto.randomUUID()` value. */
  type Uuid = s: string | |s| == 36 witness "00000000-0000-0000-0000-000000000000"

  /** The classes whose flag is set, from position `k` of the record on, in record order. */
  function EnabledFrom(ec: EnabledClasses, k: nat): (cs: seq<ClassName>)
    requires k <= |AllClasses|
    ensures forall c: ClassName :: c in cs <==> ec.Get(c) && c.Index() >= k
    ensures forall i, j :: 0 <= i < j < |cs| ==> cs[i].Index() < cs[j].Index()
    ensures forall i :: 0 <= i < |cs| ==> cs[i].Index() >= k
    decreases |AllClasses| - k
  {
    if k == |AllClasses| then []
    else
      var rest := EnabledFrom(ec, k + 1);
      assert forall c: ClassName :: c.Index() == k ==> c == AllClasses[k];
      if ec.Get(AllClasses[k]) then [AllClasses[k]] + rest else rest
  }

  /** `Object.entries(enabledClasses).filter(enabled).map(name)`. */
  function EnabledClassNames(ec: EnabledClasses): (names: seq<string>)
    ensures forall c: ClassName :: c.Name() in names <==> ec.Get(c)
    ensures names == [] <==> forall c: ClassName :: !ec.Get(c)
    ensures |names| <= |AllClasses|
  {
    var cs := EnabledFrom(ec, 0);
    forall c: ClassName ensures c.Name() in Names(cs) <==> c in cs {
      NamesMembership(cs, c);
    }
    assert cs != [] ==> ec.Get(cs[0]);
    IndicesDistinct(cs);
    Names(cs)
  }

  /** Classes listed with strictly increasing positions are at most four. */
  lemma IndicesDistinct(cs: seq<ClassName>)
    requires forall i, j :: 0 <= i < j < |cs| ==> cs[i].Index() < cs[j].Index()
    ensures |cs| <= |AllClasses|
  {
    if cs != [] {
      IndexAtLeastPosition(cs, |cs| - 1);
    }
  }

  lemma {:induction false} IndexAtLeastPosition(cs: seq<ClassName>, i: nat)
    requires forall a, b :: 0 <= a < b < |cs| ==> cs[a].Index() < cs[b].Index()
    requires i < |cs|
    ensures cs[i].Index() >= i
  {
    if i > 0 {
      IndexAtLeastPosition(cs, i - 1);
    }
  }

  /** The `classes` field of a request: the enabled names, or absent when none is enabled. */
  function RequestClasses(ec: EnabledClasses): (classes: Option<seq<string>>)
    ensures classes.None? <==> forall c: ClassName :: !ec.Get(c)
    ensures classes.Some? ==> classes.value == EnabledClassNames(ec) && classes.value != []
  {
    var names := EnabledClassNames(ec);
    if |names| > 0 then Some(names) else None
  }

  /** The body posted to the detection endpoint. It has no speed or display field. */
  datatype DetectRequest = DetectRequest(image: string, sessionId: Option<string>, classes: Option<seq<string>>)

  function BuildRequest(image: string, sessionId: Option<string>, settings: DetectionSettings): (req: DetectRequest)
    ensures req.image == image && req.sessionId == sessionId
    ensures forall c: ClassName :: req.classes.Some? ==> (c.Name() in req.classes.value <==> settings.enabledClasses.Get(c))
    ensures req.classes == RequestClasses(settings.enabledClasses)
  {
    DetectRequest(image, sessionId, RequestClasses(settings.enabledClasses))
  }

  /** Settings that differ only in speed and display flags give the same request. */
  lemma RequestIgnoresSpeedAndDisplay(image: string, sessionId: Option<string>, a: DetectionSettings, b: DetectionSettings)
    requires a.enabledClasses == b.enabledClasses
    ensures BuildRequest(image, sessionId, a) == BuildRequest(image, sessionId, b)
  {
  }

  /** How a request ends: a parsed response, or one of the failures. */
  datatype Outcome = Succeeded(data: DetectionResponse) | Failed(failure: Failure)
  datatype Failure = HttpError(status: int) | NetworkError | MalformedBody

  /** The hook's state. */
  datatype ClientState = ClientState(
    sessionId: Option<string>,
    isDetecting: bool,
    isDetectionPaused: bool,
    detectionResults: Option<DetectionResponse>,
    detectionImage: Option<string>)

  const Initial: ClientState := ClientState(None, false, false, None, None)

  /** The session effect: assign a fresh id only when there is none. */
  function InitSessionStep(s: ClientState, id: Uuid): (r: ClientState)
    ensures Truthy(r.sessionId)
    ensures Truthy(s.sessionId) ==> r == s
    ensures !Truthy(s.sessionId) ==> r == s.(sessionId := Some(id))
  {
    if Truthy(s.sessionId) then s else s.(sessionId := Some(id))
  }

  /** `detectObjects`: drop the frame when paused or busy, otherwise mark the
    * request in flight and build its body. */
  function DispatchStep(s: ClientState, image: string, settings: DetectionSettings): (r: (ClientState, Option<DetectRequest>))
    ensures r.1.Some? <==> !s.isDetectionPaused && !s.isDetecting
    ensures r.1.None? ==> r.0 == s
    ensures r.1.Some? ==> r.0 == s.(isDetecting := true) && r.1.value == BuildRequest(image, s.sessionId, settings)
  {
    if s.isDetectionPaused || s.isDetecting then (s, None)
    else (s.(isDetecting := true), Some(BuildRequest(image, s.sessionId, settings)))
  }

  /** The end of a request: `finally` clears the in-flight flag on every
    * exit; `onSuccess` replaces the results wholesale and the annotated image
    * only when the response carries one. */
  function SettleStep(s: ClientState, outcome: Outcome): (r: ClientState)
    ensures !r.isDetecting
    ensures r.sessionId == s.sessionId && r.isDetectionPaused == s.isDetectionPaused
    ensures outcome.Failed? ==> r.detectionResults == s.detectionResults && r.detectionImage == s.detectionImage
    ensures outcome.Succeeded? ==> r.detectionResults == Some(outcome.data)
    ensures outcome.Succeeded? && Truthy(outcome.data.processedImage) ==> r.detectionImage == outcome.data.processedImage
    ensures !(outcome.Succeeded? && Truthy(outcome.data.processedImage)) ==> r.detectionImage == s.detectionImage
  {
    match outcome
    case Failed(_) => s.(isDetecting := false)
    case Succeeded(data) =>
      var cleared := s.(isDetecting := false);
      var withResults := cleared.(detectionResults := Some(data));
      if Truthy(data.processedImage) then withResults.(detectionImage := data.processedImage) else withResults
  }

  /** `toggleDetectionPause`: negate the pause flag and nothing else. */
  function TogglePauseStep(s: ClientState): (r: ClientState)
    ensures r.isDetectionPaused == !s.isDetectionPaused
    ensures r.(isDetectionPaused := s.isDetectionPaused) == s
  {
    s.(isDetectionPaused := !s.isDetectionPaused)
  }

  /** The statistics query runs only once there is a session id. */
  function StatsQueryEnabled(s: ClientState): bool
  {
    Truthy(s.sessionId)
  }

  /** The events the hook reacts to. */
  datatype Event =
    | SessionEffect(id: Uuid)
    | Frame(image: string, settings: DetectionSettings)
    | Settled(outcome: Outcome)
    | TogglePause

  function Step(s: ClientState, e: Event): (ClientState, Option<DetectRequest>)
  {
    match e
    case SessionEffect(id) => (InitSessionStep(s, id), None)
    case Frame(image, settings) => DispatchStep(s, image, settings)
    case Settled(outcome) => (SettleStep(s, outcome), None)
    case TogglePause => (TogglePauseStep(s), None)
  }

  /** The state after a sequence of events, with the requests sent on the way. */
  datatype Replay = Replay(final: ClientState, sent: seq<DetectRequest>, settled: nat)

  function Run(s: ClientState, evs: seq<Event>): Replay
    decreases |evs|
  {
    if evs == [] then Replay(s, [], 0)
    else
      var (s1, req) := Step(s, evs[0]);
      var rest := Run(s1, evs[1..]);
      Replay(rest.final,
             (if req.Some? then [req.value] else []) + rest.sent,
             (if evs[0].Settled? then 1 else 0) + rest.settled)
  }

  /** A request settles only while one is in flight: the `finally` and
    * `onSuccess` callbacks belong to the request that was started. */
  predicate WellFormed(s: ClientState, evs: seq<Event>)
    decreases |evs|
  {
    evs == [] ||
    ((evs[0].Settled? ==> s.isDetecting) && WellFormed(Step(s, evs[0]).0, evs[1..]))
  }

  /** At most one request is open at any time: every send after the first
    * is preceded by the settlement of the previous one, and the in-flight
    * flag says exactly whether one is open. */
  lemma {:induction false} AtMostOneInFlight(s: ClientState, evs: seq<Event>)
    requires WellFormed(s, evs)
    ensures var r := Run(s, evs);
      (if s.isDetecting then 1 else 0) + |r.sent| == r.settled + (if r.final.isDetecting then 1 else 0)
    decreases |evs|
  {
    if evs != [] {
      AtMostOneInFlight(Step(s, evs[0]).0, evs[1..]);
    }
  }

  /** While paused, and until the pause is toggled, no frame is sent. */
  lemma {:induction false} PausedSendsNothing(s: ClientState, evs: seq<Event>)
    requires s.isDetectionPaused
    requires forall i :: 0 <= i < |evs| ==> !evs[i].TogglePause?
    ensures Run(s, evs).sent == [] && Run(s, evs).final.isDetectionPaused
    decreases |evs|
  {
    if evs != [] {
      PausedSendsNothing(Step(s, evs[0]).0, evs[1..]);
    }
  }

  /** The first id offered by the session effect, if any. */
  function FirstSessionId(evs: seq<Event>): Option<string>
  {
    if evs == [] then None
    else if evs[0].SessionEffect? then Some(evs[0].id)
    else FirstSessionId(evs[1..])
  }

  /** The session id is assigned once, from the first effect run, and never changes after. */
  lemma {:induction false} SessionAssignedOnce(s: ClientState, evs: seq<Event>)
    requires !Truthy(s.sessionId)
    ensures FirstSessionId(evs).Some? ==> Run(s, evs).final.sessionId == FirstSessionId(evs)
    ensures FirstSessionId(evs).None? ==> Run(s, evs).final.sessionId == s.sessionId
    decreases |evs|
  {
    if evs != [] {
      var s1 := Step(s, evs[0]).0;
      if evs[0].SessionEffect? {
        SessionStable(s1, evs[1..]);
      } else {
        SessionAssignedOnce(s1, evs[1..]);
      }
    }
  }

  /** Once assigned, the session id is kept, and every request carries it. */
  lemma {:induction false} SessionStable(s: ClientState, evs: seq<Event>)
    requires Truthy(s.sessionId)
    ensures Run(s, evs).final.sessionId == s.sessionId
    ensures forall i :: 0 <= i < |Run(s, evs).sent| ==> Run(s, evs).sent[i].sessionId == s.sessionId
    decreases |evs|
  {
    if evs != [] {
      SessionStable(Step(s, evs[0]).0, evs[1..]);
    }
  }

  /** After any sequence of events the statistics query is enabled exactly
    * when a session id was held at the start or the session effect ran. */
  lemma {:induction false} StatsEnabledIffSession(s: ClientState, evs: seq<Event>)
    ensures StatsQueryEnabled(Run(s, evs).final) <==>
              Truthy(s.sessionId) || exists i :: 0 <= i < |evs| && evs[i].SessionEffect?
    decreases |evs|
  {
    if evs != [] {
      var s1 := Step(s, evs[0]).0;
      StatsEnabledIffSession(s1, evs[1..]);
      assert Truthy(s1.sessionId) <==> Truthy(s.sessionId) || evs[0].SessionEffect?;
      if exists i :: 0 <= i < |evs[1..]| && evs[1..][i].SessionEffect? {
        var i :| 0 <= i < |evs[1..]| && evs[1..][i].SessionEffect?;
        assert evs[i + 1].SessionEffect?;
      }
      if exists i :: 0 <= i < |evs| && evs[i].SessionEffect? {
        var i :| 0 <= i < |evs| && evs[i].SessionEffect?;
        if i > 0 {
          assert evs[1..][i - 1].SessionEffect?;
        }
      }
    }
  }

  /** When every frame is sent with class `c` disabled, no request names `c`. */
  lemma {:induction false} DisabledClassNeverRequested(s: ClientState, evs: seq<Event>, c: ClassName)
    requires forall i :: 0 <= i < |evs| && evs[i].Frame? ==> !evs[i].settings.enabledClasses.Get(c)
    ensures forall i :: 0 <= i < |Run(s, evs).sent| && Run(s, evs).sent[i].classes.Some? ==>
              c.Name() !in Run(s, evs).sent[i].classes.value
    decreases |evs|
  {
    if evs != [] {
      DisabledClassNeverRequested(Step(s, evs[0]).0, evs[1..], c);
    }
  }

  /** The results shown are those of the last successful request, or the
    * earlier ones when no request succeeded: a failure never clears them. */
  function LastResults(prev: Option<DetectionResponse>, evs: seq<Event>): Option<DetectionResponse>
    decreases |evs|
  {
    if evs == [] then prev
    else if evs[0].Settled? && evs[0].outcome.Succeeded? then LastResults(Some(evs[0].outcome.data), evs[1..])
    else LastResults(prev, evs[1..])
  }

  /** The annotated image shown is the last truthy `processedImage` received. */
  function LastImage(prev: Option<string>, evs: seq<Event>): Option<string>
    decreases |evs|
  {
    if evs == [] then prev
    else if evs[0].Settled? && evs[0].outcome.Succeeded? && Truthy(evs[0].outcome.data.processedImage)
    then LastImage(evs[0].outcome.data.processedImage, evs[1..])
    else LastImage(prev, evs[1..])
  }

  lemma {:induction false} ResultsAreLatest(s: ClientState, evs: seq<Event>)
    ensures Run(s, evs).final.detectionResults == LastResults(s.detectionResults, evs)
    ensures Run(s, evs).final.detectionImage == LastImage(s.detectionImage, evs)
    decreases |evs|
  {
    if evs != [] {
      ResultsAreLatest(Step(s, evs[0]).0, evs[1..]);
    }
  }

  /** The hook's state, updated in place by its handlers. */
  class DetectionHook {
    var sessionId: Option<string>
    var isDetecting: bool
    var isDetectionPaused: bool
    var detectionResults: Option<DetectionResponse>
    var detectionImage: Option<string>

    function State(): ClientState
      reads this
    {
      ClientState(sessionId, isDetecting, isDetectionPaused, detectionResults, detectionImage)
    }

    constructor ()
      ensures State() == Initial
    {
      sessionId := None;
      isDetecting := false;
      isDetectionPaused := false;
      detectionResults := None;
      detectionImage := None;
    }

    /** The session effect, run with the id `crypto.randomUUID()` produced. */
    method RunSessionEffect(newId: Uuid)
      modifies this
      ensures State() == InitSessionStep(old(State()), newId)
    {
      if !Truthy(sessionId) {
        sessionId := Some(newId);
      }
    }

    /** `detectObjects` together with the start of `mutationFn`. */
    method DetectObjects(imageData: string, settings: DetectionSettings) returns (request: Option<DetectRequest>)
      modifies this
      ensures (State(), request) == DispatchStep(old(State()), imageData, settings)
    {
      if isDetectionPaused || isDetecting {
        return None;
      }
      isDetecting := true;
      request := Some(BuildRequest(imageData, sessionId, settings));
    }

    /** The request's `finally` block, then `onSuccess` when it succeeded. */
    method SettleRequest(outcome: Outcome)
      modifies this
      ensures State() == SettleStep(old(State()), outcome)
    {
      isDetecting := false;
      if outcome.Succeeded? {
        detectionResults := Some(outcome.data);
        if Truthy(outcome.data.processedImage) {
          detectionImage := outcome.data.processedImage;
        }
      }
    }

    /** `toggleDetectionPause`. */
    method ToggleDetectionPause()
      modifies this
      ensures State() == TogglePauseStep(old(State()))
    {
      isDetectionPaused := !isDetectionPaused;
    }
  }
}

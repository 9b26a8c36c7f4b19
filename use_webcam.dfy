/**
 * The camera source of client/src/hooks/useWebcam.ts: acquiring and
 * releasing the camera stream, the ready/error/enabled flags, frame capture
 * and the capture interval. Streams are objects whose tracks carry a live
 * bit; intervals are ids in the window's timer table.
 */
module UseWebcam {
  import opened DetectionTypes
  import opened Browser

  /** The requested resolution; either side may be left unspecified. */
  datatype Resolution = Resolution(width: Option<nat>, height: Option<nat>)

  /** The hook's props; an absent prop takes its default. */
  datatype WebcamProps = WebcamProps(
    hasOnFrame: bool,
    enabled: Option<bool>,
    captureInterval: Option<nat>,
    resolution: Option<Resolution>)

  datatype WebcamConfig = WebcamConfig(hasOnFrame: bool, enabled: bool, captureInterval: nat, resolution: Resolution)

  /** Applies the destructuring defaults: enabled, a 1000 ms interval, 1280x720. */
  function ResolveProps(p: WebcamProps): (c: WebcamConfig)
    ensures c.hasOnFrame == p.hasOnFrame
    ensures c.enabled == (p.enabled != Some(false))
    ensures c.captureInterval == (if p.captureInterval.Some? then p.captureInterval.value else 1000)
    ensures c.resolution == (if p.resolution.Some? then p.resolution.value else Resolution(Some(1280), Some(720)))
  {
    WebcamConfig(
      p.hasOnFrame,
      if p.enabled.Some? then p.enabled.value else true,
      if p.captureInterval.Some? then p.captureInterval.value else 1000,
      if p.resolution.Some? then p.resolution.value else Resolution(Some(1280), Some(720)))
  }

  /** The video constraints passed to `getUserMedia`. */
  datatype VideoConstraints = VideoConstraints(idealWidth: Option<nat>, idealHeight: Option<nat>, audio: bool)

  function ConstraintsFor(r: Resolution): (vc: VideoConstraints)
    ensures vc.idealWidth == r.width && vc.idealHeight == r.height && !vc.audio
  {
    VideoConstraints(r.width, r.height, false)
  }

  /** How `getUserMedia` answers: a stream with some tracks, or a rejection. */
  datatype Acquisition = Granted(trackCount: nat) | Rejected(message: string)

  const ErrorPrefix: string := "Failed to access webcam: "
  const UnsupportedMessage: string := "WebCam API not supported in this browser"

  /** The error text shown for a failed acquisition. */
  function FailureMessage(reason: string): (msg: string)
    ensures |msg| == |ErrorPrefix| + |reason|
    ensures msg[..|ErrorPrefix|] == ErrorPrefix && msg[|ErrorPrefix|..] == reason
  {
    ErrorPrefix + reason
  }

  /** The hook's state: flags, refs, and the window's interval table. */
  class WebcamHook {
    const config: WebcamConfig
    const video: VideoElement?
    const canvas: Canvas?
    var isWebcamReady: bool
    var isWebcamEnabled: bool
    var error: Option<string>
    var stream: MediaStream?
    var intervalRef: Option<nat>
    /** Installed intervals of the window, id to period; ids are positive. */
    var timers: map<nat, nat>
    var nextTimerId: nat
    /** Every stream the hook has obtained. */
    ghost var acquired: set<MediaStream>

    /** At most one live stream (the one held) and at most one interval (the one referenced). */
    ghost predicate Valid()
      reads this, acquired
    {
      && (stream != null ==> stream in acquired)
      && (forall s :: s in acquired && s != stream ==> s.Stopped())
      && 0 < nextTimerId
      && (intervalRef.Some? ==> 0 < intervalRef.value < nextTimerId)
      && (forall id :: id in timers ==> intervalRef == Some(id))
    }

    /** The released state: no stream held, the video detached, not ready. */
    predicate Released()
      reads this, video
    {
      stream == null && !isWebcamReady && (video != null ==> video.srcObject == null)
    }

    constructor (props: WebcamProps, video: VideoElement?, canvas: Canvas?)
      ensures Valid()
      ensures config == ResolveProps(props) && this.video == video && this.canvas == canvas
      ensures isWebcamEnabled == config.enabled && !isWebcamReady && error.None?
      ensures stream == null && intervalRef.None? && timers == map[]
    {
      config := ResolveProps(props);
      this.video := video;
      this.canvas := canvas;
      isWebcamReady := false;
      isWebcamEnabled := ResolveProps(props).enabled;
      error := None;
      stream := null;
      intervalRef := None;
      timers := map[];
      nextTimerId := 1;
      acquired := {};
    }

    /** The window never holds more than one capture interval for this hook. */
    lemma AtMostOneInterval()
      requires Valid()
      ensures |timers.Keys| <= 1
    {
      if intervalRef.Some? {
        assert timers.Keys <= {intervalRef.value};
        SubsetCard(timers.Keys, {intervalRef.value});
      } else {
        assert timers.Keys == {};
      }
    }

    /** `initWebcam`: fail when the media API is missing; otherwise stop the
      * old stream's tracks, request a new stream, and on success store it and,
      * when there is a video element, attach it, set ready and clear the error. */
    method InitWebcam(apiAvailable: bool, answer: Acquisition) returns (requested: Option<VideoConstraints>)
      requires Valid()
      modifies this, stream, video
      ensures Valid()
      ensures isWebcamEnabled == old(isWebcamEnabled)
      ensures intervalRef == old(intervalRef) && timers == old(timers)
      ensures !apiAvailable ==>
                requested.None? && stream == old(stream)
                && !isWebcamReady && error == Some(FailureMessage(UnsupportedMessage))
                && (old(stream) != null ==> unchanged(old(stream)))
      ensures apiAvailable ==> requested == Some(ConstraintsFor(config.resolution))
      ensures apiAvailable && old(stream) != null ==> old(stream).Stopped()
      ensures apiAvailable && answer.Granted? ==>
                stream != null && fresh(stream) && stream.tracksLive == seq(answer.trackCount, _ => true)
      ensures apiAvailable && answer.Granted? && video != null ==>
                video.srcObject == stream && isWebcamReady && error.None?
      ensures apiAvailable && answer.Granted? && video == null ==>
                isWebcamReady == old(isWebcamReady) && error == old(error)
      ensures apiAvailable && answer.Rejected? ==>
                stream == old(stream) && !isWebcamReady && error == Some(FailureMessage(answer.message))
      ensures !(apiAvailable && answer.Granted?) && video != null ==> video.srcObject == old(video.srcObject)
    {
      if !apiAvailable {
        isWebcamReady := false;
        error := Some(FailureMessage(UnsupportedMessage));
        return None;
      }
      if stream != null {
        stream.StopAllTracks();
      }
      requested := Some(ConstraintsFor(config.resolution));
      match answer {
        case Granted(n) =>
          var s := new MediaStream(n);
          stream := s;
          acquired := acquired + {s};
          if video != null {
            video.srcObject := s;
            isWebcamReady := true;
            error := None;
          }
        case Rejected(message) =>
          isWebcamReady := false;
          error := Some(FailureMessage(message));
      }
    }

    /** `stopWebcam`: stop and drop the stream, detach the video, clear ready.
      * From the released state it changes nothing, so it is idempotent. */
    method StopWebcam()
      requires Valid()
      modifies this, stream, video
      ensures Valid() && Released()
      ensures forall s :: s in acquired ==> s.Stopped()
      ensures acquired == old(acquired)
      ensures isWebcamEnabled == old(isWebcamEnabled) && error == old(error)
      ensures intervalRef == old(intervalRef) && timers == old(timers)
      ensures old(Released()) ==> unchanged(this) && (video != null ==> unchanged(video))
    {
      if stream != null {
        stream.StopAllTracks();
        stream := null;
      }
      if video != null {
        video.srcObject := null;
      }
      isWebcamReady := false;
    }

    /** `toggleWebcam`: stop when enabled, start otherwise, and negate the flag. */
    method ToggleWebcam(apiAvailable: bool, answer: Acquisition) returns (requested: Option<VideoConstraints>)
      requires Valid()
      modifies this, stream, video
      ensures Valid()
      ensures isWebcamEnabled == !old(isWebcamEnabled)
      ensures old(isWebcamEnabled) ==> Released() && requested.None? && (forall s :: s in acquired ==> s.Stopped())
      ensures !old(isWebcamEnabled) && apiAvailable ==> requested == Some(ConstraintsFor(config.resolution))
      ensures !old(isWebcamEnabled) && apiAvailable && old(stream) != null ==> old(stream).Stopped()
      ensures !old(isWebcamEnabled) && apiAvailable && answer.Granted? && video != null ==>
                stream != null && fresh(stream) && video.srcObject == stream && isWebcamReady && error.None?
      ensures !old(isWebcamEnabled) && !(apiAvailable && answer.Granted?) ==> !isWebcamReady
      ensures intervalRef == old(intervalRef) && timers == old(timers)
      ensures old(isWebcamEnabled) ==> error == old(error)
      ensures !old(isWebcamEnabled) && !apiAvailable ==>
                requested.None? && stream == old(stream) && error == Some(FailureMessage(UnsupportedMessage))
      ensures !old(isWebcamEnabled) && apiAvailable && answer.Granted? ==>
                stream != null && fresh(stream) && stream.tracksLive == seq(answer.trackCount, _ => true)
      ensures !old(isWebcamEnabled) && apiAvailable && answer.Granted? && video == null ==>
                isWebcamReady == old(isWebcamReady) && error == old(error)
      ensures !old(isWebcamEnabled) && apiAvailable && answer.Rejected? ==>
                stream == old(stream) && error == Some(FailureMessage(answer.message))
      ensures !old(isWebcamEnabled) && !apiAvailable && old(stream) != null ==> unchanged(old(stream))
      ensures !old(isWebcamEnabled) && !(apiAvailable && answer.Granted?) && video != null ==>
                video.srcObject == old(video.srcObject)
    {
      if isWebcamEnabled {
        StopWebcam();
        isWebcamEnabled := false;
        requested := None;
      } else {
        requested := InitWebcam(apiAvailable, answer);
        isWebcamEnabled := true;
      }
    }

    /** `captureFrame`: nothing without a video element, readiness and a
      * capture canvas; otherwise size the canvas to the video and, given a
      * 2D context, return the encoded frame and hand it to `onFrame`. */
    method CaptureFrame(hasContext: bool, encoded: string) returns (imageData: Option<string>, forwarded: Option<string>)
      modifies canvas
      ensures video == null || !isWebcamReady || canvas == null ==>
                imageData.None? && forwarded.None? && (canvas != null ==> unchanged(canvas))
      ensures video != null && isWebcamReady && canvas != null ==>
                canvas.width == video.videoWidth && canvas.height == video.videoHeight
                && imageData == (if hasContext then Some(encoded) else None)
                && forwarded == (if hasContext && config.hasOnFrame then Some(encoded) else None)
    {
      if video == null || !isWebcamReady || canvas == null {
        return None, None;
      }
      canvas.width := video.videoWidth;
      canvas.height := video.videoHeight;
      if !hasContext {
        return None, None;
      }
      imageData := Some(encoded);
      forwarded := if config.hasOnFrame then Some(encoded) else None;
    }

    /** The interval effect: when enabled, ready and given `onFrame`, clear the
      * referenced interval and install a new one with the capture period. */
    method IntervalEffect()
      requires Valid()
      modifies this
      ensures Valid()
      ensures old(isWebcamEnabled && isWebcamReady) && config.hasOnFrame ==>
                intervalRef == Some(old(nextTimerId)) && timers == map[old(nextTimerId) := config.captureInterval]
      ensures !(old(isWebcamEnabled && isWebcamReady) && config.hasOnFrame) ==> unchanged(this)
      ensures stream == old(stream) && isWebcamReady == old(isWebcamReady) && isWebcamEnabled == old(isWebcamEnabled)
      ensures error == old(error)
    {
      if isWebcamEnabled && isWebcamReady && config.hasOnFrame {
        if intervalRef.Some? && intervalRef.value != 0 {
          timers := timers - {intervalRef.value};
        }
        assert timers == map[];
        var id := nextTimerId;
        nextTimerId := nextTimerId + 1;
        timers := timers[id := config.captureInterval];
        intervalRef := Some(id);
      }
    }

    /** The interval effect's cleanup: clear the referenced interval and forget it. */
    method IntervalCleanup()
      requires Valid()
      modifies this
      ensures Valid()
      ensures intervalRef.None? && timers == map[]
      ensures stream == old(stream) && isWebcamReady == old(isWebcamReady) && isWebcamEnabled == old(isWebcamEnabled)
      ensures error == old(error)
    {
      if intervalRef.Some? && intervalRef.value != 0 {
        timers := timers - {intervalRef.value};
        intervalRef := None;
      }
    }

    /** The mount effect: start the camera when the hook is enabled. */
    method MountEffect(apiAvailable: bool, answer: Acquisition) returns (requested: Option<VideoConstraints>)
      requires Valid()
      modifies this, stream, video
      ensures Valid()
      ensures !config.enabled ==> requested.None? && unchanged(this)
      ensures config.enabled ==> isWebcamEnabled == old(isWebcamEnabled)
      ensures config.enabled ==> intervalRef == old(intervalRef) && timers == old(timers)
      ensures config.enabled && !apiAvailable ==>
                requested.None? && stream == old(stream)
                && !isWebcamReady && error == Some(FailureMessage(UnsupportedMessage))
      ensures config.enabled && apiAvailable ==> requested == Some(ConstraintsFor(config.resolution))
      ensures config.enabled && apiAvailable && old(stream) != null ==> old(stream).Stopped()
      ensures config.enabled && apiAvailable && answer.Granted? ==>
                stream != null && fresh(stream) && stream.tracksLive == seq(answer.trackCount, _ => true)
      ensures config.enabled && apiAvailable && answer.Granted? && video != null ==>
                video.srcObject == stream && isWebcamReady && error.None?
      ensures config.enabled && apiAvailable && answer.Granted? && video == null ==>
                isWebcamReady == old(isWebcamReady) && error == old(error)
      ensures config.enabled && apiAvailable && answer.Rejected? ==>
                stream == old(stream) && !isWebcamReady && error == Some(FailureMessage(answer.message))
      ensures config.enabled && !apiAvailable && old(stream) != null ==> unchanged(old(stream))
      ensures config.enabled && !(apiAvailable && answer.Granted?) && video != null ==>
                video.srcObject == old(video.srcObject)
    {
      requested := None;
      if config.enabled {
        requested := InitWebcam(apiAvailable, answer);
      }
    }

    /** The mount effect's cleanup: release the camera and clear the interval
      * (the reference itself is left as it was). */
    method UnmountCleanup()
      requires Valid()
      modifies this, stream, video
      ensures Valid() && Released()
      ensures forall s :: s in acquired ==> s.Stopped()
      ensures timers == map[] && intervalRef == old(intervalRef)
      ensures isWebcamEnabled == old(isWebcamEnabled) && error == old(error)
    {
      StopWebcam();
      if intervalRef.Some? && intervalRef.value != 0 {
        timers := timers - {intervalRef.value};
      }
    }
  }

  lemma SubsetCard<T>(a: set<T>, b: set<T>)
    requires a <= b
    ensures |a| <= |b|
  {
    if a != {} {
      var x :| x in a;
      SubsetCard(a - {x}, b - {x});
    }
  }
}

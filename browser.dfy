/**
 * Stand-ins for the browser objects the hooks hold references to: a media
 * stream with its tracks, the video element and a canvas. Only the state
 * the core reads or writes is kept.
 */
module Browser {

  /** A camera stream; each track is live until stopped. */
  class MediaStream {
    var tracksLive: seq<bool>

    constructor (trackCount: nat)
      ensures tracksLive == seq(trackCount, _ => true)
    {
      tracksLive := seq(trackCount, _ => true);
    }

    /** Every track of the stream has been stopped. */
    predicate Stopped()
      reads this
    {
      forall i :: 0 <= i < |tracksLive| ==> !tracksLive[i]
    }

    /** `getTracks().forEach(track => track.stop())`. */
    method StopAllTracks()
      modifies this
      ensures Stopped() && |tracksLive| == old(|tracksLive|)
    {
      var i := 0;
      while i < |tracksLive|
        invariant 0 <= i <= |tracksLive| == old(|tracksLive|)
        invariant forall k :: 0 <= k < i ==> !tracksLive[k]
      {
        tracksLive := tracksLive[i := false];
        i := i + 1;
      }
    }
  }

  /** A `<video>` element: its source and the size of the frames it plays. */
  class VideoElement {
    var srcObject: MediaStream?
    var videoWidth: nat
    var videoHeight: nat

    constructor (width: nat, height: nat)
      ensures srcObject == null && videoWidth == width && videoHeight == height
    {
      srcObject := null;
      videoWidth := width;
      videoHeight := height;
    }
  }

  /** A `<canvas>` element's drawing-buffer size. */
  class Canvas {
    var width: nat
    var height: nat

    constructor (w: nat, h: nat)
      ensures width == w && height == h
    {
      width := w;
      height := h;
    }
  }
}

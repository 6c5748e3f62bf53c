/**
 * The Remotion composition: the playback time of a frame and the caption,
 * if any, handed to the renderer for it.
 */
module CaptionedVideo {
  import opened Wrappers
  import opened Captions
  import opened Overlay

  /** `frame / fps`; Remotion's frame rate is always positive. */
  function CurrentTime(frame: nat, fps: real): real
    requires fps > 0.0
  {
    frame as real / fps
  }

  /**
   * The caption layer of one frame: nothing when no caption shows at the
   * frame's time, otherwise the props of the first caption in list order
   * that shows, inclusive at both ends.
   */
  function Compose(captions: seq<Caption>, style: Style, frame: nat, fps: real): (r: Option<RendererProps>)
    requires fps > 0.0
    ensures var t := CurrentTime(frame, fps);
      r.None? <==> forall j | 0 <= j < |captions| :: !Shows(captions[j], t)
    ensures var t := CurrentTime(frame, fps);
      r.Some? ==>
        && r.value.style == style && r.value.currentTime == t
        && r.value.captionStart <= t <= r.value.captionEnd
        && exists i | 0 <= i < |captions| ::
          && captions[i] == Caption(r.value.captionStart, r.value.captionEnd, r.value.text)
          && forall j | 0 <= j < i :: !Shows(captions[j], t)
  {
    var t := CurrentTime(frame, fps);
    match Find(captions, t)
    case None => None
    case Some(i) => Some(RendererProps(captions[i].text, style, t, captions[i].start, captions[i].end))
  }

  /**
   * Frame n at 30 frames per second is at n/30 s. At frame 45 both captions
   * show, and the one listed first is chosen although the other starts
   * earlier.
   */
  lemma ComposeExample()
    ensures CurrentTime(45, 30.0) == 1.5
    ensures Compose([Caption(1.0, 5.0, "B"), Caption(0.0, 3.0, "A")], Bottom, 45, 30.0)
      == Some(RendererProps("B", Bottom, 1.5, 1.0, 5.0))
  {
    assert Shows(Caption(1.0, 5.0, "B"), 1.5);
  }
}

/**
 * The browser exporter's pure parts: the per-frame decision (stop, or draw
 * the frame with the caption that shows at the video's current time), the
 * forced-stop delay, and the burn-in geometry of `drawCaption`. Canvas,
 * MediaRecorder, audio capture and animation-frame scheduling are outside
 * the model; the text width that `measureText` reports is a parameter.
 */
module VideoExport {
  import opened Wrappers
  import opened Js
  import opened Captions

  /** The forced stop never waits longer than two minutes. */
  const MaxRecordingMs: real := 120000.0

  /** A `fillRect` call: top-left corner, width and height, in canvas pixels. */
  datatype Rect = Rect(x: real, y: real, w: real, h: real)

  /** A filled rectangle and its colour. */
  datatype Fill = Fill(rect: Rect, color: string)

  /** The text's fill: a solid colour, or the three-stop gradient from `x0` to `x1`. */
  datatype Paint = Solid(color: string) | Gradient(x0: real, x1: real)

  /**
   * What `drawCaption` draws: the font size and text height, the text
   * anchor (centred both ways), the rectangles filled behind it, whether
   * the text is outlined first, and the text's fill.
   */
  datatype Drawing = Drawing(
    text: string, fontSize: real, textHeight: real, x: real, y: real,
    fills: seq<Fill>, outlined: bool, paint: Paint)

  /** The video element's state when a frame callback runs. */
  datatype Playback = Playback(currentTime: real, ended: bool, paused: bool)

  /** One run of `renderFrame`: stop the recorder, or draw the frame with an optional caption. */
  datatype FrameAction = StopRecorder | DrawFrame(time: real, caption: Option<Drawing>)

  /** `Math.max(24, width / 40)`: the larger of 24 px and a fortieth of the frame width. */
  function FontSize(width: real): (r: real)
    ensures r >= 24.0 && r >= width / 40.0
    ensures r == 24.0 || r == width / 40.0
  {
    Max(24.0, width / 40.0)
  }

  /** `Math.min(video.duration * 1000, 120000)`: the delay before the forced stop, in ms. */
  function StopDelay(durationSeconds: real): (r: real)
    ensures r <= MaxRecordingMs && r <= durationSeconds * 1000.0
    ensures r == MaxRecordingMs || r == durationSeconds * 1000.0
  {
    Min(durationSeconds * 1000.0, MaxRecordingMs)
  }

  /** `drawCaption` for a text whose measured width is `textWidth`. */
  function DrawCaption(text: string, style: Style, width: real, height: real, textWidth: real): Drawing {
    var fontSize := FontSize(width);
    var textHeight := fontSize;
    var x := width / 2.0;
    match style
    case Bottom =>
      var y := height - height * 0.12;
      var box := Rect(x - textWidth / 2.0 - 20.0, y - textHeight / 2.0 - 10.0, textWidth + 40.0, textHeight + 20.0);
      Drawing(text, fontSize, textHeight, x, y, [Fill(box, "rgba(0, 0, 0, 0.8)")], false, Solid("white"))
    case Top =>
      var y := height * 0.15;
      var bar := Rect(0.0, y - textHeight / 2.0 - 15.0, width, textHeight + 30.0);
      var accent := Rect(0.0, y + textHeight / 2.0 + 5.0, width, 4.0);
      Drawing(text, fontSize, textHeight, x, y, [Fill(bar, "rgba(0, 0, 0, 0.9)"), Fill(accent, "#ff6b6b")], false, Solid("white"))
    case Karaoke =>
      var y := height - height * 0.15;
      Drawing(text, fontSize, textHeight, x, y, [], true, Gradient(x - textWidth / 2.0, x + textWidth / 2.0))
  }

  /**
   * `renderFrame`: stop once the video has ended or paused; otherwise draw
   * the frame and, on top, the first caption in list order that shows at
   * the video's current time, if any.
   */
  function RenderFrame(p: Playback, captions: seq<Caption>, style: Style, width: real, height: real,
                       measure: string -> real): (a: FrameAction)
    ensures a.StopRecorder? <==> p.ended || p.paused
    ensures a.DrawFrame? ==> a.time == p.currentTime
    ensures a.DrawFrame? ==> (a.caption.None? <==> forall j | 0 <= j < |captions| :: !Shows(captions[j], p.currentTime))
    ensures a.DrawFrame? && a.caption.Some? ==>
      exists i | 0 <= i < |captions| ::
        && Shows(captions[i], p.currentTime)
        && (forall j | 0 <= j < i :: !Shows(captions[j], p.currentTime))
        && a.caption.value == DrawCaption(captions[i].text, style, width, height, measure(captions[i].text))
  {
    if p.ended || p.paused then StopRecorder
    else
      match Find(captions, p.currentTime)
      case None => DrawFrame(p.currentTime, None)
      case Some(i) =>
        var text := captions[i].text;
        DrawFrame(p.currentTime, Some(DrawCaption(text, style, width, height, measure(text))))
  }

  /**
   * The animation-frame loop over the successive states the video is in:
   * every frame before the first ended-or-paused state is drawn, in order,
   * and the recorder is stopped exactly when such a state is reached.
   */
  method RenderLoop(states: seq<Playback>, captions: seq<Caption>, style: Style, width: real, height: real,
                    measure: string -> real)
    returns (frames: seq<FrameAction>, stopped: bool)
    ensures |frames| <= |states|
    ensures forall k | 0 <= k < |frames| ::
      !states[k].ended && !states[k].paused
      && frames[k] == RenderFrame(states[k], captions, style, width, height, measure)
      && frames[k].DrawFrame?
    ensures stopped <==> exists k | 0 <= k < |states| :: states[k].ended || states[k].paused
    ensures stopped ==> states[|frames|].ended || states[|frames|].paused
    ensures !stopped ==> |frames| == |states|
  {
    frames := [];
    var i := 0;
    while i < |states|
      invariant 0 <= i <= |states| && |frames| == i
      invariant forall k | 0 <= k < i ::
        !states[k].ended && !states[k].paused
        && frames[k] == RenderFrame(states[k], captions, style, width, height, measure)
        && frames[k].DrawFrame?
    {
      var action := RenderFrame(states[i], captions, style, width, height, measure);
      if action.StopRecorder? {
        return frames, true;
      }
      frames := frames + [action];
      i := i + 1;
    }
    stopped := false;
  }

  /** A 300-second source is force-stopped after 120 000 ms; a 10-second one after 10 000 ms. */
  lemma StopDelayExamples()
    ensures StopDelay(300.0) == MaxRecordingMs
    ensures StopDelay(10.0) == 10000.0
  {
  }

  /** The font grows with the frame once the frame is at least 960 px wide; the text is as tall as the font. */
  lemma FontScales(text: string, style: Style, width: real, height: real, textWidth: real)
    ensures width >= 960.0 <==> FontSize(width) == width / 40.0
    ensures DrawCaption(text, style, width, height, textWidth).textHeight == FontSize(width)
    ensures DrawCaption(text, style, width, height, textWidth).x == width / 2.0
  {
  }

  /**
   * Bottom style: anchored at (width/2, 0.88·height), over one background
   * box 20 px wider than the text on each side and 10 px taller above and
   * below, centred on the anchor.
   */
  lemma BottomBoxCentred(text: string, width: real, height: real, textWidth: real)
    ensures var d := DrawCaption(text, Bottom, width, height, textWidth);
      && d.y == 0.88 * height
      && |d.fills| == 1
      && d.fills[0].rect.x + d.fills[0].rect.w / 2.0 == d.x
      && d.fills[0].rect.y + d.fills[0].rect.h / 2.0 == d.y
      && d.fills[0].rect.w == textWidth + 40.0
      && d.fills[0].rect.h == d.fontSize + 20.0
      && !d.outlined
  {
  }

  /**
   * Top style: anchored at 0.15·height over a bar that spans the whole
   * width, is 30 px taller than the text and centred on the anchor; the
   * 4 px accent line lies entirely inside the bar.
   */
  lemma TopBarHoldsAccent(text: string, width: real, height: real, textWidth: real)
    ensures var d := DrawCaption(text, Top, width, height, textWidth);
      var bar := d.fills[0].rect;
      var accent := d.fills[1].rect;
      && |d.fills| == 2
      && d.y == 0.15 * height
      && bar.x == 0.0 && bar.w == width
      && bar.h == d.fontSize + 30.0
      && bar.y + bar.h / 2.0 == d.y
      && accent.x == 0.0 && accent.w == width && accent.h == 4.0
      && bar.y <= accent.y && accent.y + accent.h <= bar.y + bar.h
  {
  }

  /**
   * Karaoke style: anchored at 0.85·height with no background, the text
   * outlined, and the gradient spanning exactly the text's width, centred
   * on the anchor.
   */
  lemma KaraokeUnboxed(text: string, width: real, height: real, textWidth: real)
    ensures var d := DrawCaption(text, Karaoke, width, height, textWidth);
      && d.y == 0.85 * height
      && d.fills == []
      && d.outlined
      && d.paint.Gradient?
      && d.paint.x1 - d.paint.x0 == textWidth
      && (d.paint.x0 + d.paint.x1) / 2.0 == d.x
  {
  }
}

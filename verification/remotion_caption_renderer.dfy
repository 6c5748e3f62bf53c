/**
 * The Remotion studio's caption renderer: larger per-style constants, the
 * entrance fade as opacity, and for the karaoke style a highlighted copy
 * of the text clipped to `karaokeProg * 100` percent of the width. The
 * spring scale is outside the model.
 */
module RemotionCaptionRenderer {
  import opened Wrappers
  import opened Captions
  import opened Overlay

  /** `getStyleConfig`: bottom 48 px, top 42 px with an accent border, karaoke 52 px without background. */
  function Config(style: Style): StyleConfig {
    match style
    case Bottom => StyleConfig(FromBottom(10), 48, Some("rgba(0, 0, 0, 0.8)"), false)
    case Top => StyleConfig(FromTop(10), 42, Some("rgba(0, 0, 0, 0.9)"), true)
    case Karaoke => StyleConfig(FromBottom(15), 52, None, false)
  }

  /**
   * What the component renders: layout, opacity, the text, and for the
   * karaoke style the width of the filled overlay in percent.
   */
  datatype Visual = Visual(config: StyleConfig, opacity: real, text: string, fillPercent: Option<real>)

  /**
   * The component. Both branches fade in with the entrance progress; only
   * karaoke has a fill, which lies in [0, 100], is 0 at the caption's start,
   * 100 from its end on, and in between is the elapsed fraction of the
   * caption in percent.
   */
  function Render(p: RendererProps): (v: Visual)
    requires p.captionStart < p.captionEnd
    ensures v.config == Config(p.style) && v.text == p.text
    ensures v.opacity == EntranceProgress(p.currentTime, p.captionStart) && 0.0 <= v.opacity <= 1.0
    ensures v.fillPercent.Some? <==> p.style == Karaoke
    ensures v.fillPercent.Some? ==> 0.0 <= v.fillPercent.value <= 100.0
    ensures v.fillPercent.Some? && p.currentTime <= p.captionStart ==> v.fillPercent.value == 0.0
    ensures v.fillPercent.Some? && p.currentTime >= p.captionEnd ==> v.fillPercent.value == 100.0
    ensures v.fillPercent.Some? && p.captionStart <= p.currentTime <= p.captionEnd ==>
      v.fillPercent.value * (p.captionEnd - p.captionStart) == 100.0 * (p.currentTime - p.captionStart)
  {
    var progress := EntranceProgress(p.currentTime, p.captionStart);
    var karaokeProg := KaraokeProgress(p.currentTime, p.captionStart, p.captionEnd);
    if p.style == Karaoke then
      Visual(Config(p.style), progress, p.text, Some(karaokeProg * 100.0))
    else
      Visual(Config(p.style), progress, p.text, None)
  }

  /** The fill never shrinks as playback advances through a karaoke caption. */
  lemma FillGrows(p: RendererProps, later: real)
    requires p.captionStart < p.captionEnd && p.style == Karaoke && p.currentTime <= later
    ensures Render(p).fillPercent.value <= Render(p.(currentTime := later)).fillPercent.value
  {
    KaraokeRamp(p.currentTime, later, p.captionStart, p.captionEnd);
  }

  /** The layout constants are a pure lookup by style. */
  lemma FontSizes()
    ensures Config(Bottom).fontSize == 48 && Config(Top).fontSize == 42 && Config(Karaoke).fontSize == 52
    ensures Config(Top).accentBorder && Config(Karaoke).background.None?
  {
  }
}

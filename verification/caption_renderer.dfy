/**
 * The browser app's caption renderer: per-style layout constants, the
 * entrance fade as opacity, and for the karaoke style the caption split
 * into one span per character with a highlighted prefix. The spring scale
 * is outside the model.
 */
module CaptionRenderer {
  import opened Wrappers
  import opened Captions
  import opened Overlay

  /** The colour of a lit karaoke character. */
  const HighlightColor := "#ffdd44"

  /** The colour of a karaoke character not yet lit. */
  const PlainColor := "rgba(255, 255, 255, 0.8)"

  /** `getStyleConfig`: bottom 36 px, top 32 px with an accent border, karaoke 38 px without background. */
  function Config(style: Style): StyleConfig {
    match style
    case Bottom => StyleConfig(FromBottom(10), 36, Some("rgba(0, 0, 0, 0.8)"), false)
    case Top => StyleConfig(FromTop(10), 32, Some("rgba(0, 0, 0, 0.9)"), true)
    case Karaoke => StyleConfig(FromBottom(15), 38, None, false)
  }

  /** One `<span>` of the karaoke split: its character, whether it is lit, and the colour that follows. */
  datatype Span = Span(ch: char, highlighted: bool) {
    function Color(): string {
      if highlighted then HighlightColor else PlainColor
    }
  }

  /** The rendered body: the plain text, or one span per character. */
  datatype Body = PlainText(text: string) | Characters(spans: seq<Span>)

  /** What the component renders: the style's layout, its opacity, and its body. */
  datatype Visual = Visual(config: StyleConfig, opacity: real, body: Body)

  /** `Math.floor(karaokeProg * totalChars)`: how many characters are lit; never more than there are. */
  function HighlightedChars(prog: real, len: nat): (r: nat)
    requires 0.0 <= prog <= 1.0
    ensures r <= len
    ensures prog == 0.0 ==> r == 0
    ensures prog == 1.0 ==> r == len
  {
    var n := len as real;
    assert prog * n >= 0.0;
    assert (1.0 - prog) * n >= 0.0;
    assert prog * n <= n;
    (prog * n).Floor
  }

  /** `text.split('').map(...)`: span i carries character i, lit when `i < highlighted`. */
  function Spans(text: string, highlighted: nat): seq<Span> {
    seq(|text|, i requires 0 <= i < |text| => Span(text[i], i < highlighted))
  }

  /** The characters of a span list, in order. */
  function Chars(spans: seq<Span>): string {
    seq(|spans|, i requires 0 <= i < |spans| => spans[i].ch)
  }

  /**
   * The component. Every style fades in with the entrance progress; the
   * karaoke style renders exactly the caption's characters, in order, with
   * the first `HighlightedChars` of them lit, in the highlight colour, and
   * the rest in the plain colour.
   */
  function Render(p: RendererProps): (v: Visual)
    requires p.captionStart < p.captionEnd
    ensures v.config == Config(p.style)
    ensures v.opacity == EntranceProgress(p.currentTime, p.captionStart) && 0.0 <= v.opacity <= 1.0
    ensures p.style != Karaoke ==> v.body == PlainText(p.text)
    ensures p.style == Karaoke ==> v.body.Characters? && Chars(v.body.spans) == p.text
    ensures p.style == Karaoke ==>
      var lit := HighlightedChars(KaraokeProgress(p.currentTime, p.captionStart, p.captionEnd), |p.text|);
      forall i | 0 <= i < |v.body.spans| :: v.body.spans[i].highlighted <==> i < lit
    ensures p.style == Karaoke ==>
      var lit := HighlightedChars(KaraokeProgress(p.currentTime, p.captionStart, p.captionEnd), |p.text|);
      forall i | 0 <= i < |v.body.spans| :: v.body.spans[i].Color() == (if i < lit then HighlightColor else PlainColor)
  {
    var progress := EntranceProgress(p.currentTime, p.captionStart);
    var karaokeProg := KaraokeProgress(p.currentTime, p.captionStart, p.captionEnd);
    if p.style == Karaoke then
      var lit := HighlightedChars(karaokeProg, |p.text|);
      var spans := Spans(p.text, lit);
      assert Chars(spans) == p.text;
      Visual(Config(p.style), progress, Characters(spans))
    else
      Visual(Config(p.style), progress, PlainText(p.text))
  }

  /** The lit spans always form a prefix: a lit span is preceded only by lit spans. */
  lemma LitSpansArePrefix(text: string, highlighted: nat, i: nat, j: nat)
    requires i <= j < |text|
    requires Spans(text, highlighted)[j].highlighted
    ensures Spans(text, highlighted)[i].highlighted
  {
  }

  /**
   * The lit prefix grows with playback time: no characters are lit up to
   * the caption's start, all of them from its end on.
   */
  lemma HighlightGrows(text: string, start: real, end: real, t: real, u: real)
    requires start < end && t <= u
    ensures HighlightedChars(KaraokeProgress(t, start, end), |text|)
      <= HighlightedChars(KaraokeProgress(u, start, end), |text|)
    ensures t <= start ==> HighlightedChars(KaraokeProgress(t, start, end), |text|) == 0
    ensures t >= end ==> HighlightedChars(KaraokeProgress(t, start, end), |text|) == |text|
  {
    var p := KaraokeProgress(t, start, end);
    var q := KaraokeProgress(u, start, end);
    KaraokeRamp(t, u, start, end);
    var n := |text| as real;
    assert (q - p) * n >= 0.0;
    assert p * n <= q * n;
  }

  /** The layout constants are a pure lookup by style. */
  lemma FontSizes()
    ensures Config(Bottom).fontSize == 36 && Config(Top).fontSize == 32 && Config(Karaoke).fontSize == 38
    ensures Config(Top).accentBorder && Config(Karaoke).background.None?
  {
  }
}

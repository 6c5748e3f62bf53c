/**
 * What both caption renderers share: their props, the clamped linear
 * `interpolate` they call for the entrance fade and the karaoke progress,
 * and the shape of a per-style layout entry.
 */
module Overlay {
  import opened Wrappers
  import opened Captions

  /** The renderer's props: the caption, the style and the playback time. */
  datatype RendererProps = RendererProps(text: string, style: Style, currentTime: real, captionStart: real, captionEnd: real)

  /** Where a caption box is pinned, as a percentage of the frame height. */
  datatype Placement = FromBottom(percent: nat) | FromTop(percent: nat)

  /** The layout constants a style selects: placement, font size in px, background, accent border. */
  datatype StyleConfig = StyleConfig(placement: Placement, fontSize: nat, background: Option<string>, accentBorder: bool)

  /** How long the entrance fade lasts, in seconds. */
  const EntranceSeconds: real := 0.3

  /**
   * `interpolate(x, [x0, x1], [0, 1], clamp on both sides)`: 0 up to `x0`,
   * 1 from `x1` on, and linear in between. The input range must be
   * strictly increasing.
   */
  function Interpolate(x: real, x0: real, x1: real): (r: real)
    requires x0 < x1
    ensures 0.0 <= r <= 1.0
    ensures x <= x0 ==> r == 0.0
    ensures x >= x1 ==> r == 1.0
    ensures x0 <= x <= x1 ==> r * (x1 - x0) == x - x0
  {
    var w := x1 - x0;
    var p := (x - x0) / w;
    assert p * w == x - x0;
    assert x <= x1 ==> p <= 1.0 by {
      if x <= x1 {
        assert (1.0 - p) * w == x1 - x;
      }
    }
    if p < 0.0 then 0.0 else if p > 1.0 then 1.0 else p
  }

  /** The clamped ramp never decreases as its input grows. */
  lemma InterpolateMonotone(x: real, y: real, x0: real, x1: real)
    requires x0 < x1 && x <= y
    ensures Interpolate(x, x0, x1) <= Interpolate(y, x0, x1)
  {
    var w := x1 - x0;
    var d := (y - x) / w;
    assert d * w == y - x;
    assert d >= 0.0;
    var a := (x - x0) / w;
    assert a * w == x - x0;
    assert (a + d) * w == y - x0;
    assert (y - x0) / w == a + d;
  }

  /** Entrance opacity: the ramp over `[start, start + 0.3]`. */
  function EntranceProgress(t: real, start: real): real {
    Interpolate(t, start, start + EntranceSeconds)
  }

  /** Karaoke fill fraction: the ramp over the caption's own `[start, end]`. */
  function KaraokeProgress(t: real, start: real, end: real): real
    requires start < end
  {
    Interpolate(t, start, end)
  }

  /**
   * The entrance fade is 0 until the caption starts, 1 from 0.3 s after,
   * within [0, 1] always, and never decreases with time.
   */
  lemma EntranceRamp(t: real, u: real, start: real)
    requires t <= u
    ensures 0.0 <= EntranceProgress(t, start) <= 1.0
    ensures t <= start ==> EntranceProgress(t, start) == 0.0
    ensures t >= start + 0.3 ==> EntranceProgress(t, start) == 1.0
    ensures EntranceProgress(t, start) <= EntranceProgress(u, start)
  {
    InterpolateMonotone(t, u, start, start + EntranceSeconds);
  }

  /**
   * The karaoke fraction is 0 at the caption's start, 1 at its end, within
   * [0, 1], and never decreases with time.
   */
  lemma KaraokeRamp(t: real, u: real, start: real, end: real)
    requires start < end && t <= u
    ensures KaraokeProgress(start, start, end) == 0.0
    ensures KaraokeProgress(end, start, end) == 1.0
    ensures 0.0 <= KaraokeProgress(t, start, end) <= 1.0
    ensures KaraokeProgress(t, start, end) <= KaraokeProgress(u, start, end)
  {
    InterpolateMonotone(t, u, start, end);
  }
}

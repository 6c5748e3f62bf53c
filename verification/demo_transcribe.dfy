/**
 * The studio's demo transcription: a fixed list of ten captions, rescaled
 * so that they split the video's duration into ten equal, gap-free
 * segments. The two-second delay and reading the duration from video
 * metadata are outside the model; which of the metadata callback and the
 * one-second timer resolves first is the parameter of `TranscribeVideo`.
 */
module DemoTranscribe {
  import opened Wrappers
  import opened Captions

  /** `DEMO_CAPTIONS`: ten 2-second captions from 0 s to 20 s. */
  const DemoCaptions: seq<Caption> := [
    Caption(0.0, 2.0, "Welcome to our video demonstration"),
    Caption(2.0, 4.0, "This is Remotion Caption Studio"),
    Caption(4.0, 6.0, "आप easily captions add कर सकते हैं"),
    Caption(6.0, 8.0, "Multiple styles available हैं"),
    Caption(8.0, 10.0, "Choose from three different presets"),
    Caption(10.0, 12.0, "Bottom centered for classic subtitles"),
    Caption(12.0, 14.0, "Top bar for news style"),
    Caption(14.0, 16.0, "या फिर karaoke effect के लिए"),
    Caption(16.0, 18.0, "Export your video with captions"),
    Caption(18.0, 20.0, "Thank you for watching!")
  ]

  /** The `.map` in `transcribeVideo`: caption i of n spans `[i·d/n, (i+1)·d/n]` and keeps its text. */
  function Rescale(cs: seq<Caption>, duration: real): seq<Caption> {
    var n := |cs|;
    seq(n, i requires 0 <= i < n =>
      Caption(i as real * (duration / n as real), (i + 1) as real * (duration / n as real), cs[i].text))
  }

  /** `DEMO_CAPTIONS` rescaled to a video of the given duration. */
  function Scaled(duration: real): seq<Caption> {
    Rescale(DemoCaptions, duration)
  }

  /**
   * `transcribeVideo`: `loaded` is the duration when the metadata callback
   * resolves the promise first, and None when the one-second timer does,
   * which resolves with the unscaled list.
   */
  function TranscribeVideo(loaded: Option<real>): seq<Caption> {
    match loaded
    case Some(duration) => Scaled(duration)
    case None => DemoCaptions
  }

  /**
   * Rescaling a non-empty list of n captions keeps the texts in order and
   * tiles `[0, d]`: it starts at 0, ends at d, has no gaps, and every
   * caption lasts d/n, which is a positive length when d is.
   */
  lemma RescaleTiles(cs: seq<Caption>, d: real)
    requires |cs| > 0
    ensures var r := Rescale(cs, d);
      && |r| == |cs|
      && (forall i | 0 <= i < |r| :: r[i].text == cs[i].text)
      && Tiles(r, 0.0, d)
      && (forall i | 0 <= i < |r| :: r[i].end - r[i].start == d / |cs| as real)
      && (d > 0.0 ==> forall i | 0 <= i < |r| :: r[i].start < r[i].end)
  {
    var r := Rescale(cs, d);
    var n := |cs|;
    var w := d / n as real;
    assert w * n as real == d;
    forall i | 0 <= i < n
      ensures r[i].start == i as real * w && r[i].end == r[i].start + w
    {
      assert (i + 1) as real * w == i as real * w + w;
    }
    assert r[n - 1].end == (n - 1 + 1) as real * w;
    assert r[0].start == 0.0;
    if d > 0.0 {
      assert w > 0.0;
    }
  }

  /**
   * The scaled demo list keeps the demo's ten texts in order and tiles
   * `[0, d]` with captions of length d/10.
   */
  lemma ScaledTiles(d: real)
    ensures var r := Scaled(d);
      && |r| == |DemoCaptions| == 10
      && (forall i | 0 <= i < |r| :: r[i].text == DemoCaptions[i].text)
      && Tiles(r, 0.0, d)
      && (forall i | 0 <= i < |r| :: r[i].end - r[i].start == d / 10.0)
      && (d > 0.0 ==> forall i | 0 <= i < |r| :: r[i].start < r[i].end)
  {
    RescaleTiles(DemoCaptions, d);
  }

  /** Scaling to 20 seconds reproduces the demo list exactly. */
  lemma ScaledToTwenty()
    ensures Scaled(20.0) == DemoCaptions
  {
    var r := Scaled(20.0);
    assert |DemoCaptions| == 10;
    assert 20.0 / 10 as real == 2.0;
    forall i | 0 <= i < 10
      ensures r[i] == DemoCaptions[i]
    {
      assert r[i] == Caption(i as real * 2.0, (i + 1) as real * 2.0, DemoCaptions[i].text);
    }
  }

  /** So the demo list itself tiles `[0, 20]` with 2-second captions. */
  lemma DemoTilesTwenty()
    ensures Tiles(DemoCaptions, 0.0, 20.0)
    ensures forall i | 0 <= i < |DemoCaptions| :: DemoCaptions[i].end - DemoCaptions[i].start == 2.0
  {
    ScaledToTwenty();
    ScaledTiles(20.0);
  }

  /** The timer fallback is the unscaled list; loaded metadata gives the scaled one. */
  lemma TranscribeVideoCases(loaded: Option<real>)
    ensures loaded.None? ==> TranscribeVideo(loaded) == DemoCaptions && Tiles(TranscribeVideo(loaded), 0.0, 20.0)
    ensures loaded.Some? ==> Tiles(TranscribeVideo(loaded), 0.0, loaded.value)
  {
    DemoTilesTwenty();
    if loaded.Some? {
      ScaledTiles(loaded.value);
    }
  }
}

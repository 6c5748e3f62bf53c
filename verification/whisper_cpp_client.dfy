/**
 * The whisper.cpp (WebAssembly) transcriber: audio cut to its first minute,
 * an automatic-language attempt, one Hindi retry when that returns nothing,
 * and a segment-to-caption conversion that uses `||` defaults, keeps every
 * segment and does not round. Module loading and the two-minute race are
 * outside the model; the recogniser is the parameter `asr`, and an
 * exception it throws is a `Failure` that propagates unchanged.
 */
module WhisperCppClient {
  import opened Wrappers
  import opened Js
  import opened Captions

  /** One whisper.cpp segment: optional `start`, `end` (seconds) and `text`. */
  datatype Segment = Segment(start: Option<real>, end: Option<real>, text: Option<string>)

  /** The recogniser's result: optional full `text` and optional `segments`. */
  datatype Transcript = Transcript(text: Option<string>, segments: Option<seq<Segment>>)

  /** 60 seconds at 16 kHz. */
  const MaxSamples: nat := 16000 * 60

  const AutoLanguage := "auto"

  const HindiLanguage := "hi"

  /** `audio.length > maxSamples ? audio.slice(0, maxSamples) : audio` */
  function Truncate(audio: seq<real>): (r: seq<real>)
    ensures |r| == if |audio| <= MaxSamples then |audio| else MaxSamples
    ensures r == audio[..|r|]
  {
    if |audio| > MaxSamples then audio[..MaxSamples] else audio
  }

  /** `!result.text && (!result.segments || result.segments.length === 0)` */
  predicate NeedsRetry(t: Transcript) {
    !Truthy(t.text) && (t.segments.None? || |t.segments.value| == 0)
  }

  /**
   * `segment.end || segment.start + 2` as written. None stands for NaN:
   * with no `start`, `undefined + 2` is NaN.
   */
  function SegmentEndAsWritten(s: Segment): Option<real> {
    if TruthyNumber(s.end) then Some(s.end.value)
    else if s.start.Some? then Some(s.start.value + 2.0)
    else None
  }

  /** The intended end: a falsy `end` defaults to the defaulted start plus two seconds. */
  function SegmentEnd(s: Segment): real {
    Or(s.end, Or(s.start, 0.0) + 2.0)
  }

  /** `{ start: segment.start || 0, end, text: segment.text?.trim() || '' }` */
  function SegmentCaption(s: Segment): Caption {
    Caption(Or(s.start, 0.0), SegmentEnd(s), if s.text.Some? then Trim(s.text.value) else "")
  }

  /** The caption list: one caption per segment when `segments` is present, else the whole-text caption, else nothing. */
  function ToCaptions(t: Transcript): seq<Caption> {
    if t.segments.Some? then
      seq(|t.segments.value|, i requires 0 <= i < |t.segments.value| => SegmentCaption(t.segments.value[i]))
    else if Truthy(t.text) then [Caption(0.0, 5.0, Trim(t.text.value))]
    else []
  }

  /** The `for (const segment of result.segments)` loop: one caption per segment, in order, with no filtering. */
  method ConvertSegments(segments: seq<Segment>) returns (captions: seq<Caption>)
    ensures |captions| == |segments|
    ensures forall i | 0 <= i < |captions| :: captions[i] == SegmentCaption(segments[i])
  {
    captions := [];
    var i := 0;
    while i < |segments|
      invariant 0 <= i <= |segments|
      invariant |captions| == i
      invariant forall j | 0 <= j < i :: captions[j] == SegmentCaption(segments[j])
    {
      captions := captions + [SegmentCaption(segments[i])];
      i := i + 1;
    }
  }

  /** The caption formatting of `performTranscription`: segments if present, else the whole-text caption, else nothing. */
  method FormatCaptions(t: Transcript) returns (captions: seq<Caption>)
    ensures captions == ToCaptions(t)
  {
    captions := [];
    if t.segments.Some? {
      captions := ConvertSegments(t.segments.value);
    } else if Truthy(t.text) {
      captions := [Caption(0.0, 5.0, Trim(t.text.value))];
    }
  }

  /**
   * `performTranscription`: the recogniser sees only the first minute of
   * audio, is asked once with automatic language detection and retried
   * once in Hindi exactly when that answer arrives with no text and no
   * segments. A thrown exception propagates as is, with no retry and no
   * fallback captions.
   */
  method PerformTranscription(audio: seq<real>, asr: (string, seq<real>) -> Result<Transcript, string>)
    returns (outcome: Result<seq<Caption>, string>, languages: seq<string>)
    ensures 1 <= |languages| <= 2 && languages[0] == AutoLanguage
    ensures |languages| == 2 <==>
      asr(AutoLanguage, Truncate(audio)).Success? && NeedsRetry(asr(AutoLanguage, Truncate(audio)).value)
    ensures |languages| == 2 ==> languages[1] == HindiLanguage
    ensures asr(AutoLanguage, Truncate(audio)).Failure? ==> outcome == Failure(asr(AutoLanguage, Truncate(audio)).error)
    ensures var last := asr(languages[|languages| - 1], Truncate(audio));
      && (outcome.Failure? <==> last.Failure?)
      && (outcome.Failure? ==> outcome.error == last.error)
      && (outcome.Success? ==> outcome.value == ToCaptions(last.value))
  {
    var samples := audio;
    if |samples| > MaxSamples {
      samples := samples[..MaxSamples];
    }
    var answer := asr(AutoLanguage, samples);
    languages := [AutoLanguage];
    if answer.Failure? {
      outcome := Failure(answer.error);
      return;
    }
    var result := answer.value;
    if !Truthy(result.text) && (result.segments.None? || |result.segments.value| == 0) {
      answer := asr(HindiLanguage, samples);
      languages := languages + [HindiLanguage];
      if answer.Failure? {
        outcome := Failure(answer.error);
        return;
      }
      result := answer.value;
    }
    var captions := FormatCaptions(result);
    outcome := Success(captions);
  }

  /** Truncation keeps short audio whole and cuts long audio to exactly `MaxSamples`. */
  lemma TruncateCases(audio: seq<real>)
    ensures |audio| <= MaxSamples ==> Truncate(audio) == audio
    ensures |audio| > MaxSamples ==> |Truncate(audio)| == MaxSamples && Truncate(audio) == audio[..MaxSamples]
    ensures Truncate(Truncate(audio)) == Truncate(audio)
  {
  }

  /**
   * Segment times are copied, not rounded, when truthy; a falsy start
   * (missing or 0) becomes 0, and a falsy end, an explicit 0 included,
   * becomes the caption's start plus two seconds.
   */
  lemma SegmentTimes(s: Segment)
    ensures TruthyNumber(s.start) ==> SegmentCaption(s).start == s.start.value
    ensures !TruthyNumber(s.start) ==> SegmentCaption(s).start == 0.0
    ensures TruthyNumber(s.end) ==> SegmentCaption(s).end == s.end.value
    ensures !TruthyNumber(s.end) ==> SegmentCaption(s).end == SegmentCaption(s).start + 2.0
  {
  }

  /** Unlike the Transformers.js conversion, a zero end is treated as missing. */
  lemma ZeroEndIsMissing()
    ensures SegmentCaption(Segment(Some(1.0), Some(0.0), Some("a"))).end == 3.0
  {
  }

  /** Every segment yields a caption, so a blank segment gives a caption with empty text. */
  lemma BlankSegmentKept()
    ensures ToCaptions(Transcript(None, Some([Segment(Some(1.0), Some(2.0), None)])))
      == [Caption(1.0, 2.0, "")]
  {
  }

  /** A present but empty `segments` array gives no captions, whatever the text says. */
  lemma EmptySegmentsHideText(text: Option<string>)
    ensures ToCaptions(Transcript(text, Some([]))) == []
  {
  }

  /** Without segments, a truthy text gives `{0, 5, trim(text)}` and no text gives nothing. */
  lemma NoSegmentsFallback(t: Transcript)
    requires t.segments.None?
    ensures Truthy(t.text) ==> ToCaptions(t) == [Caption(0.0, 5.0, Trim(t.text.value))]
    ensures !Truthy(t.text) ==> ToCaptions(t) == []
  {
  }

  /** As written, a segment with text but no times ends at NaN, so it never shows. */
  lemma SegmentEndNaN()
    ensures SegmentEndAsWritten(Segment(None, None, Some("hi"))) == None
    ensures SegmentEnd(Segment(None, None, Some("hi"))) == 2.0
  {
  }

  /** The correction changes nothing for a segment that reports its start. */
  lemma SegmentEndAgrees(s: Segment)
    ensures s.start.Some? ==> SegmentEndAsWritten(s) == Some(SegmentEnd(s))
    ensures s.start.None? && !TruthyNumber(s.end) <==> SegmentEndAsWritten(s).None?
  {
  }
}

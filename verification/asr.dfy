/**
 * The raw speech-recognition output of the Transformers.js pipeline and the
 * chunk-to-caption conversion shared by the browser client and its
 * duplicate in the Remotion studio. The caption-generation route applies
 * the same per-chunk conversion, but reads `timestamp[0]` unguarded; that
 * loop is `GenerateCaptions.FormatChunksStrict`.
 */
module Asr {
  import opened Wrappers
  import opened Js
  import opened Captions

  /** A chunk's `timestamp` array `[start, end]`; either entry may be null. */
  datatype Timestamp = Timestamp(start: Option<real>, end: Option<real>)

  /** One recognised span: an optional `timestamp` array and optional `text`. */
  datatype Chunk = Chunk(timestamp: Option<Timestamp>, text: Option<string>)

  /** The pipeline's result: optional full `text` and optional `chunks`. */
  datatype Output = Output(text: Option<string>, chunks: Option<seq<Chunk>>)

  /** The pipeline options that vary between calls (timestamps are always requested). */
  datatype Request = Request(language: Option<string>, task: Option<string>, chunkLength: nat, strideLength: nat)

  /** `chunk.timestamp?.[0]` */
  function RawStartEntry(c: Chunk): Option<real> {
    if c.timestamp.Some? then c.timestamp.value.start else None
  }

  /** `chunk.timestamp?.[1]` */
  function RawEndEntry(c: Chunk): Option<real> {
    if c.timestamp.Some? then c.timestamp.value.end else None
  }

  /** `const start = chunk.timestamp?.[0] ?? 0` */
  function RawStart(c: Chunk): real {
    Nullish(RawStartEntry(c), 0.0)
  }

  /** `const end = chunk.timestamp?.[1] ?? start + 2` (the unrounded start). */
  function RawEnd(c: Chunk): real {
    Nullish(RawEndEntry(c), RawStart(c) + 2.0)
  }

  /** `chunk.text?.trim() || ''` */
  function ChunkText(c: Chunk): string {
    match c.text
    case Some(s) => Trim(s)
    case None => ""
  }

  /** One loop iteration: a caption with one-decimal times, or nothing for a blank chunk. */
  function ChunkCaption(c: Chunk): Option<Caption> {
    var text := ChunkText(c);
    if text != "" then Some(Caption(Round1(RawStart(c)), Round1(RawEnd(c)), text)) else None
  }

  /** `output.chunks && output.chunks.length > 0` */
  predicate HasChunks(o: Output) {
    o.chunks.Some? && |o.chunks.value| > 0
  }

  /**
   * The caption list built from one pipeline output: the chunks'
   * filter-map when there are chunks, else one five-second caption for a
   * truthy `text`, else nothing.
   */
  function ToCaptions(o: Output): seq<Caption> {
    if HasChunks(o) then FilterMap(o.chunks.value, ChunkCaption)
    else if Truthy(o.text) then [Caption(0.0, 5.0, Trim(o.text.value))]
    else []
  }

  /** The `for (const chunk of output.chunks)` loop: one caption pushed per non-blank chunk. */
  method FormatChunks(chunks: seq<Chunk>) returns (captions: seq<Caption>)
    ensures captions == FilterMap(chunks, ChunkCaption)
  {
    captions := [];
    var i := 0;
    while i < |chunks|
      invariant 0 <= i <= |chunks|
      invariant captions == FilterMap(chunks[..i], ChunkCaption)
    {
      var chunk := chunks[i];
      var cap := ChunkCaption(chunk);
      if cap.Some? {
        captions := captions + [cap.value];
      }
      FilterMapStep(chunks, i, ChunkCaption);
      i := i + 1;
    }
    assert chunks[..|chunks|] == chunks;
  }

  /** The caption formatting of `transcribe`: the chunk loop, else the whole-text caption, else nothing. */
  method FormatCaptions(o: Output) returns (captions: seq<Caption>)
    ensures captions == ToCaptions(o)
    ensures HasChunks(o) ==> |captions| <= |o.chunks.value|
    ensures !HasChunks(o) ==> |captions| <= 1
  {
    captions := [];
    if HasChunks(o) {
      captions := FormatChunks(o.chunks.value);
    } else if Truthy(o.text) {
      captions := [Caption(0.0, 5.0, Trim(o.text.value))];
    }
  }

  /**
   * Rounding can collapse a short chunk to a caption of zero length:
   * `[0.01, 0.04]` rounds to `[0, 0]`.
   */
  lemma RoundingCollapses()
    ensures ChunkCaption(Chunk(Some(Timestamp(Some(0.01), Some(0.04))), Some("a"))) == Some(Caption(0.0, 0.0, "a"))
  {
    TrimUnchanged("a");
    assert Round1(0.01) == 0.0 by {
      assert (0.01 * 10.0 + 0.5).Floor == 0;
    }
    assert Round1(0.04) == 0.0 by {
      assert (0.04 * 10.0 + 0.5).Floor == 0;
    }
  }

  /** A chunk yields a caption exactly when its text is present and not blank. */
  lemma ChunkKeptIff(c: Chunk)
    ensures ChunkCaption(c).Some? <==>
      c.text.Some? && exists i | 0 <= i < |c.text.value| :: !IsWhitespace(c.text.value[i])
    ensures ChunkCaption(c).Some? ==>
      && ChunkCaption(c).value.text != ""
      && Trim(ChunkCaption(c).value.text) == ChunkCaption(c).value.text
  {
    if c.text.Some? {
      TrimSpec(c.text.value);
    }
    if ChunkCaption(c).Some? {
      TrimIdempotent(c.text.value);
    }
  }

  /**
   * Defaults: a missing start becomes 0; a missing end becomes the start
   * plus two seconds, exactly, after rounding; an explicit 0 end is kept,
   * because `??` only replaces null and undefined.
   */
  lemma ChunkDefaults(c: Chunk)
    requires ChunkCaption(c).Some?
    ensures RawStartEntry(c).None? ==> ChunkCaption(c).value.start == 0.0
    ensures RawEndEntry(c).None? ==> ChunkCaption(c).value.end == ChunkCaption(c).value.start + 2.0
    ensures RawStartEntry(c) == Some(0.0) ==> ChunkCaption(c).value.start == 0.0
    ensures RawEndEntry(c) == Some(0.0) ==> ChunkCaption(c).value.end == 0.0
  {
    var r := ChunkCaption(c).value;
    assert r.start == Round1(RawStart(c)) && r.end == Round1(RawEnd(c));
    assert Round1(0.0) == 0.0 by {
      assert (0.0 * 10.0 + 0.5).Floor == 0;
    }
    if RawEndEntry(c).None? {
      assert RawEnd(c) == RawStart(c) + 2.0;
      Round1Shift(RawStart(c), 2);
    }
  }

  /**
   * Rounding: each emitted time is within 0.05 s of the raw value, lies on
   * the 0.1 s grid, and a raw `start <= end` stays `start <= end`.
   */
  lemma ChunkRounding(c: Chunk)
    requires ChunkCaption(c).Some?
    ensures -0.05 < ChunkCaption(c).value.start - RawStart(c) <= 0.05
    ensures -0.05 < ChunkCaption(c).value.end - RawEnd(c) <= 0.05
    ensures Round1(ChunkCaption(c).value.start) == ChunkCaption(c).value.start
    ensures Round1(ChunkCaption(c).value.end) == ChunkCaption(c).value.end
    ensures RawStart(c) <= RawEnd(c) ==> ChunkCaption(c).value.start <= ChunkCaption(c).value.end
  {
    Round1Within(RawStart(c));
    Round1Within(RawEnd(c));
    Round1Idempotent(RawStart(c));
    Round1Idempotent(RawEnd(c));
    if RawStart(c) <= RawEnd(c) {
      Round1Monotone(RawStart(c), RawEnd(c));
    }
  }

  /**
   * With chunks present, the captions are an order-preserving filter-map of
   * them: caption k comes from chunk `Kept[k]`, those positions increase,
   * every non-blank chunk is kept, and every caption's text is non-blank
   * and already trimmed.
   */
  lemma CaptionsFollowChunks(o: Output)
    requires HasChunks(o)
    ensures var cs := o.chunks.value; var ks := Kept(cs, ChunkCaption); var r := ToCaptions(o);
      && |r| == |ks| <= |cs|
      && (forall k | 0 <= k < |r| :: ks[k] < |cs| && ChunkCaption(cs[ks[k]]) == Some(r[k]))
      && (forall k, l | 0 <= k < l < |ks| :: ks[k] < ks[l])
      && (forall i | 0 <= i < |cs| :: ChunkText(cs[i]) != "" <==> i in ks)
      && (forall k | 0 <= k < |r| :: r[k].text != "" && Trim(r[k].text) == r[k].text)
  {
    var cs := o.chunks.value;
    FilterMapKeepsOrder(cs, ChunkCaption);
    forall k | 0 <= k < |ToCaptions(o)|
      ensures ToCaptions(o)[k].text != "" && Trim(ToCaptions(o)[k].text) == ToCaptions(o)[k].text
    {
      var ks := Kept(cs, ChunkCaption);
      ChunkKeptIff(cs[ks[k]]);
    }
  }

  /**
   * Chunks take precedence over `text`: when chunks exist but are all
   * blank the result is empty, even if the full text is not.
   */
  lemma BlankChunksHideText(o: Output)
    requires HasChunks(o)
    requires forall i | 0 <= i < |o.chunks.value| :: ChunkText(o.chunks.value[i]) == ""
    ensures ToCaptions(o) == []
  {
    FilterMapNone(o.chunks.value, ChunkCaption);
  }

  /**
   * Without chunks, a truthy text gives the single caption `{0, 5, trim(text)}`;
   * a whitespace-only text therefore gives one caption with empty text.
   */
  lemma PlainTextCaption(o: Output)
    requires !HasChunks(o) && Truthy(o.text)
    ensures |ToCaptions(o)| == 1
    ensures ToCaptions(o)[0].start == 0.0 && ToCaptions(o)[0].end == 5.0
    ensures ToCaptions(o)[0].text == Trim(o.text.value)
    ensures (forall i | 0 <= i < |o.text.value| :: IsWhitespace(o.text.value[i])) ==> ToCaptions(o)[0].text == ""
  {
    TrimSpec(o.text.value);
  }

  /**
   * The converter synthesises no fallback: the list is empty exactly when
   * chunks exist but are all blank, or there are no chunks and no text.
   */
  lemma CaptionsEmptyIff(o: Output)
    ensures ToCaptions(o) == [] <==>
      || (HasChunks(o) && forall i | 0 <= i < |o.chunks.value| :: ChunkText(o.chunks.value[i]) == "")
      || (!HasChunks(o) && !Truthy(o.text))
  {
    if HasChunks(o) {
      var cs := o.chunks.value;
      if ToCaptions(o) == [] {
        FilterMapKeepsOrder(cs, ChunkCaption);
      } else if forall i | 0 <= i < |cs| :: ChunkText(cs[i]) == "" {
        BlankChunksHideText(o);
      }
    }
  }

  lemma TrimPaddedHello()
    ensures Trim(" Hello ") == "Hello"
  {
    var s := " Hello ";
    assert IsWhitespace(s[0]);
    assert s[1..] == "Hello ";
    assert !IsWhitespace('H');
    assert TrimStart(s) == "Hello ";
    var t := "Hello ";
    assert t[..5] == "Hello";
    assert !IsWhitespace('o');
    assert TrimEnd(t) == "Hello";
  }

  /** A padded chunk `[0.04, 1.98] " Hello "` becomes `{0.0, 2.0, "Hello"}`. */
  lemma PaddedChunkExample()
    ensures ToCaptions(Output(Some(" Hello "), Some([Chunk(Some(Timestamp(Some(0.04), Some(1.98))), Some(" Hello "))])))
      == [Caption(0.0, 2.0, "Hello")]
  {
    var c := Chunk(Some(Timestamp(Some(0.04), Some(1.98))), Some(" Hello "));
    TrimPaddedHello();
    assert (0.04 * 10.0 + 0.5).Floor == 0;
    assert (1.98 * 10.0 + 0.5).Floor == 20;
    assert ChunkCaption(c) == Some(Caption(0.0, 2.0, "Hello"));
    assert [c][..0] == [];
  }
}

/**
 * The studio's caption-generation route: one English recogniser call, the
 * chunk loop with an unguarded `chunk.timestamp[0]`, and the fixed fallback
 * list that the catch block returns for any exception. Form parsing and
 * JSON responses are outside the model.
 */
module GenerateCaptions {
  import opened Wrappers
  import opened Captions
  import opened Js
  import opened Asr

  /** The route's call: English, 30 s chunks with 5 s stride. */
  const RouteRequest := Request(Some("english"), Some("transcribe"), 30, 5)

  const ModelName := "whisper-tiny.en"

  const FallbackError := "Model loading failed - using fallback captions"

  /** What V8 throws for `chunk.timestamp[0]` when `timestamp` is missing. */
  const MissingTimestampMessage := "Cannot read properties of undefined (reading '0')"

  /** The catch-path list: three 3-second captions. */
  const FallbackCaptions := [
    Caption(0.0, 3.0, "Transcription is processing..."),
    Caption(3.0, 6.0, "Please ensure your video has clear audio"),
    Caption(6.0, 9.0, "The model may need to download on first use")
  ]

  /** The JSON body: generated captions with the model name, or the fallback list with an error. */
  datatype Response =
    | Generated(captions: seq<Caption>, model: string)
    | Fallback(captions: seq<Caption>, error: string, details: string)

  /**
   * The route's chunk loop: it throws at the first chunk without a
   * `timestamp`, blank or not, and otherwise builds the same filter-map as
   * the clients.
   */
  method FormatChunksStrict(chunks: seq<Chunk>) returns (r: Result<seq<Caption>, string>)
    ensures r.Success? <==> forall i | 0 <= i < |chunks| :: chunks[i].timestamp.Some?
    ensures r.Success? ==> r.value == FilterMap(chunks, ChunkCaption)
    ensures r.Failure? ==> r.error == MissingTimestampMessage
  {
    var captions: seq<Caption> := [];
    var i := 0;
    while i < |chunks|
      invariant 0 <= i <= |chunks|
      invariant forall j | 0 <= j < i :: chunks[j].timestamp.Some?
      invariant captions == FilterMap(chunks[..i], ChunkCaption)
    {
      var chunk := chunks[i];
      if chunk.timestamp.None? {
        assert !chunks[i].timestamp.Some?;
        return Failure(MissingTimestampMessage);
      }
      assert forall j | 0 <= j < i + 1 :: chunks[j].timestamp.Some?;
      var cap := ChunkCaption(chunk);
      if cap.Some? {
        captions := captions + [cap.value];
      }
      FilterMapStep(chunks, i, ChunkCaption);
      i := i + 1;
    }
    assert chunks[..|chunks|] == chunks;
    r := Success(captions);
  }

  /**
   * `POST`: the recogniser's answer (or the message it threw) becomes the
   * generated captions, unless anything throws, in which case the whole
   * response is the fallback list with an error, never a partial list.
   */
  method Post(asr: Request -> Result<Output, string>) returns (resp: Response)
    ensures asr(RouteRequest).Failure? ==>
      resp == Fallback(FallbackCaptions, FallbackError, asr(RouteRequest).error)
    ensures asr(RouteRequest).Success? ==>
      var o := asr(RouteRequest).value;
      if HasChunks(o) && exists i | 0 <= i < |o.chunks.value| :: o.chunks.value[i].timestamp.None?
      then resp == Fallback(FallbackCaptions, FallbackError, MissingTimestampMessage)
      else resp == Generated(ToCaptions(o), ModelName)
  {
    var transcript := asr(RouteRequest);
    if transcript.Failure? {
      return Fallback(FallbackCaptions, FallbackError, transcript.error);
    }
    var output := transcript.value;
    var captions := [];
    if HasChunks(output) {
      var formatted := FormatChunksStrict(output.chunks.value);
      if formatted.Failure? {
        return Fallback(FallbackCaptions, FallbackError, formatted.error);
      }
      captions := formatted.value;
    } else if Truthy(output.text) {
      captions := [Caption(0.0, 5.0, Trim(output.text.value))];
    }
    resp := Generated(captions, ModelName);
  }

  /** The fallback list tiles `[0, 9]` with three captions of exactly 3 s each. */
  lemma FallbackTiles()
    ensures |FallbackCaptions| == 3
    ensures Tiles(FallbackCaptions, 0.0, 9.0)
    ensures forall i | 0 <= i < |FallbackCaptions| :: FallbackCaptions[i].end - FallbackCaptions[i].start == 3.0
  {
  }
}

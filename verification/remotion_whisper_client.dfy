/**
 * The Remotion studio's copy of the Transformers.js transcriber: a single
 * recogniser call with default language, then the same caption formatting
 * as the browser client, with no retry. An exception the recogniser throws
 * is a `Failure`, rethrown unchanged.
 */
module RemotionWhisperClient {
  import opened Wrappers
  import opened Captions
  import opened Asr

  /** The only call: 30 s chunks with 5 s stride, no language or task given. */
  const DefaultRequest := Request(None, None, 30, 5)

  /**
   * `transcribe`: exactly one recogniser call. A thrown exception is
   * rethrown with no fallback captions; otherwise the captions are that
   * answer's filter-map of non-blank chunks, its whole-text caption, or
   * nothing.
   */
  method Transcribe(asr: Request -> Result<Output, string>)
    returns (result: Result<seq<Caption>, string>, requests: seq<Request>)
    ensures requests == [DefaultRequest]
    ensures result.Failure? <==> asr(DefaultRequest).Failure?
    ensures result.Failure? ==> result.error == asr(DefaultRequest).error
    ensures result.Success? ==> result.value == ToCaptions(asr(DefaultRequest).value)
    ensures result.Success? && HasChunks(asr(DefaultRequest).value) ==>
      |result.value| <= |asr(DefaultRequest).value.chunks.value|
    ensures result.Success? && !HasChunks(asr(DefaultRequest).value) ==> |result.value| <= 1
  {
    var answer := asr(DefaultRequest);
    requests := [DefaultRequest];
    if answer.Failure? {
      result := Failure(answer.error);
      return;
    }
    var captions := FormatCaptions(answer.value);
    result := Success(captions);
  }
}

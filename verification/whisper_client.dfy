/**
 * The browser Transformers.js transcriber: one English attempt, a single
 * Hindi retry when that attempt returns neither text nor chunks, then the
 * shared caption formatting. Model loading is outside the model; the
 * recogniser is the parameter `asr`, and an exception it throws is a
 * `Failure`, which the transcriber rethrows unchanged.
 */
module WhisperClient {
  import opened Wrappers
  import opened Js
  import opened Captions
  import opened Asr

  /** First attempt: English, 15 s chunks with 2 s stride. */
  const EnglishRequest := Request(Some("english"), Some("transcribe"), 15, 2)

  /** Retry: Hindi, 30 s chunks with 5 s stride. */
  const HindiRequest := Request(Some("hindi"), Some("transcribe"), 30, 5)

  /** `!output.text && (!output.chunks || output.chunks.length === 0)` */
  predicate NeedsRetry(o: Output) {
    !Truthy(o.text) && !HasChunks(o)
  }

  /**
   * `transcribe`: the requests issued, in order, and the outcome. There is
   * at most one retry, and it happens exactly when the English answer
   * arrives with no text and no chunks. A thrown exception ends the call:
   * it is rethrown as is, with no retry and no fallback captions.
   * Otherwise the captions are formatted from the last answer.
   */
  method Transcribe(asr: Request -> Result<Output, string>)
    returns (result: Result<seq<Caption>, string>, requests: seq<Request>)
    ensures 1 <= |requests| <= 2 && requests[0] == EnglishRequest
    ensures |requests| == 2 <==> asr(EnglishRequest).Success? && NeedsRetry(asr(EnglishRequest).value)
    ensures |requests| == 2 ==> requests[1] == HindiRequest
    ensures asr(EnglishRequest).Failure? ==> result == Failure(asr(EnglishRequest).error)
    ensures var last := asr(requests[|requests| - 1]);
      && (result.Failure? <==> last.Failure?)
      && (result.Failure? ==> result.error == last.error)
      && (result.Success? ==> result.value == ToCaptions(last.value))
  {
    var answer := asr(EnglishRequest);
    requests := [EnglishRequest];
    if answer.Failure? {
      result := Failure(answer.error);
      return;
    }
    var output := answer.value;
    if !Truthy(output.text) && (output.chunks.None? || |output.chunks.value| == 0) {
      answer := asr(HindiRequest);
      requests := requests + [HindiRequest];
      if answer.Failure? {
        result := Failure(answer.error);
        return;
      }
      output := answer.value;
    }
    var captions := FormatCaptions(output);
    result := Success(captions);
  }

  /** A retried attempt is one that would have produced no captions at all. */
  lemma RetryOnlyWhenEmpty(o: Output)
    requires NeedsRetry(o)
    ensures ToCaptions(o) == []
  {
  }

  /**
   * The converse fails: an answer whose chunks are all blank is not retried,
   * although it yields no captions, even with a non-empty full text.
   */
  lemma BlankChunksAreNotRetried()
    ensures var o := Output(Some("hi"), Some([Chunk(None, Some("  "))]));
      !NeedsRetry(o) && ToCaptions(o) == []
  {
    var c := Chunk(None, Some("  "));
    assert ChunkText(c) == "" by {
      assert IsWhitespace("  "[0]) && IsWhitespace("  "[1]);
    }
    BlankChunksHideText(Output(Some("hi"), Some([c])));
  }
}

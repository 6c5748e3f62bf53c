# AI captions: caption normalisation and overlay, in Dafny

This project models the pure core of the AI-captions application. It does not model the media pipelines around that core. Four pieces are covered:

- **Transcript-to-caption converters.** The browser Transformers.js client (with its Hindi retry) and its duplicate in the Remotion studio. The studio's caption-generation route (with its fixed fallback list). The whisper.cpp client (with one-minute audio truncation and `||` defaults).
- **The demo transcription.** Ten fixed captions, rescaled so that they tile the video's duration.
- **The overlay.** The active caption at a frame's time, chosen first-in-list and inclusive at both ends. The entrance fade and the karaoke progress, both clamped linear ramps. The lit-character prefix of the karaoke style and the per-style layout constants of both renderers.
- **The exporter's burn-in.** The per-frame stop-or-draw decision, the animation-frame loop, the forced-stop delay `min(duration·1000, 120000)`, and the geometry `drawCaption` draws for each style.

Times are mathematical reals. JavaScript's `Math.round(x)` is `Floor(x + 1/2)`, and rounding to one decimal is `Math.round(x·10)/10`. `trim` removes the ECMAScript WhiteSpace and LineTerminator characters, listed explicitly in `Js.Whitespace`. A Dafny `char` is a Unicode scalar value. For text made of Basic Multilingual Plane characters, a char is exactly one UTF-16 code unit, which is what `text.length` and `split('')` count. Text with characters outside that plane is not covered (see "## Left out"). Each recogniser call (Transformers.js or whisper.cpp) is a function parameter, so the model records which requests a client makes and in what order. The width that `measureText` reports is also a parameter.

Modules follow the source files. `Wrappers` and `Js` hold the JavaScript primitives. `Captions` holds the caption record, the first-match `Find` and the generic order-preserving `FilterMap`. `Asr` holds the chunk conversion that the two Transformers.js clients and the route share. `Overlay` holds the props and the `interpolate` ramps that both renderers share. Then there is one module per remaining source file.

Four things one might expect of a caption normaliser do not hold in the code, and the model follows the code:
- A recogniser exception is not turned into captions. The three browser-side transcribers rethrow it unchanged, with no retry and no fallback list. Only the caption-generation route answers a failure with its fixed fallback list.
- The converters can return an empty list. The browser clients synthesise no fallback, and only the route has a fixed fallback list.
- On overlap, the active caption is the first one in list order, not the one with the earliest start.
- Nothing guarantees `end > start`. Rounding can make the two equal (`Asr.RoundingCollapses`: a chunk `[0.01, 0.04]` becomes the caption `[0, 0]`), and a chunk's raw end may precede its start.

## Model

| member | source | states |
|---|---|---|
| Js.TrimStartSpec | src/lib/whisper-client.ts:98 | the leading-whitespace pass of `trim` returns the suffix that starts at the first non-whitespace character: everything it drops is whitespace |
| Js.TrimEndSpec | src/lib/whisper-client.ts:98 | the trailing-whitespace pass of `trim` returns the prefix that ends at the last non-whitespace character: everything it drops is whitespace |
| Js.TrimInfix | src/lib/whisper-client.ts:98 | `trim` returns the infix of the input that starts where the leading whitespace ends; everything before and after that infix is whitespace |
| Js.TrimSpec | src/lib/whisper-client.ts:98 | `trim` returns the infix of the input left once whitespace is removed from both ends; the result has no whitespace at either end and is empty exactly when the input is blank |
| Js.TrimIdempotent | src/lib/whisper-client.ts:98-100 | trimming an already trimmed caption text changes nothing |
| Js.Round1Within | src/lib/whisper-client.ts:102-103 | `Math.round(x*10)/10` moves a time by more than -0.05 and at most +0.05 (half-way cases go up) |
| Js.Round1Monotone | src/lib/whisper-client.ts:102-103 | one-decimal rounding is monotone, so a raw `start <= end` stays `start <= end` (possibly equal) |
| Js.Round1Shift | src/lib/whisper-client.ts:97-103 | rounding commutes with adding whole seconds, which makes the 2-second default exact after rounding |
| Js.Round1Idempotent | src/lib/whisper-client.ts:102-103 | a rounded time lies on the 0.1 s grid: rounding it again changes nothing |
| Captions.Find | remotion-captions/src/remotion/CaptionedVideo.tsx:27-29 | `captions.find`: the result, if any, shows at `t` (inclusive at both ends) and no earlier caption does; None exactly when no caption shows |
| Captions.FindPrefersListOrder | remotion-captions/src/remotion/CaptionedVideo.tsx:27-29 | on overlap the first caption in list order wins even when a later one starts earlier; the empty list gives nothing |
| Captions.KeptSpec | src/lib/whisper-client.ts:94-107 | the positions the push loop keeps are in bounds, strictly increasing, and are exactly the chunks whose conversion is present |
| Captions.FilterMapKeepsOrder | src/lib/whisper-client.ts:94-107 | the push loop is an order-preserving filter-map: output k comes from input position `Kept[k]`, the positions strictly increase, and a position is kept exactly when its image is present |
| Asr.FormatChunks | src/lib/whisper-client.ts:95-107 | the chunk loop builds exactly the filter-map of the chunks under the one-chunk conversion |
| Asr.FormatCaptions | src/lib/whisper-client.ts:91-117 | the formatting step equals the chunk filter-map when chunks exist, else the single whole-text caption, else nothing; at most one caption per chunk |
| Asr.ChunkKeptIff | src/lib/whisper-client.ts:98-100 | a chunk yields a caption iff its text is present and contains a non-whitespace character; the emitted text is non-empty and already trimmed |
| Asr.ChunkDefaults | src/lib/whisper-client.ts:96-105 | a missing start becomes 0; a missing end becomes start + 2 exactly after rounding; an explicit 0 is kept because `??` only replaces null and undefined |
| Asr.RoundingCollapses | src/lib/whisper-client.ts:97-103 | a chunk `[0.01, 0.04]` with text `a` becomes the caption `{0, 0, "a"}`: rounding collapses it to zero length |
| Asr.ChunkRounding | src/lib/whisper-client.ts:102-103 | emitted times are within 0.05 s of the raw ones and on the 0.1 s grid, and a raw `start <= end` is preserved |
| Asr.CaptionsFollowChunks | src/lib/whisper-client.ts:94-107 | with chunks present, the captions are an order-preserving filter-map of them: no re-sorting, length at most the chunk count, every non-blank chunk kept, every text non-blank |
| Asr.BlankChunksHideText | src/lib/whisper-client.ts:94-117 | chunks that are all blank give an empty list even when `output.text` is non-empty, because the text branch is an `else if` |
| Asr.PlainTextCaption | src/lib/whisper-client.ts:108-115 | with no chunks and truthy text the result is exactly `{0, 5, trim(text)}`; whitespace-only text gives one caption with empty text |
| Asr.CaptionsEmptyIff | src/lib/whisper-client.ts:92-117 | the result is empty iff chunks exist but are all blank, or there are neither chunks nor text: no fallback is synthesised |
| Asr.PaddedChunkExample | src/lib/whisper-client.ts:94-107 | the chunk `[0.04, 1.98] " Hello "` becomes `{0.0, 2.0, "Hello"}` |
| WhisperClient.Transcribe | src/lib/whisper-client.ts:64-121 | the English request comes first; the Hindi request follows iff the first answer arrives with falsy text and no chunks, at most once; an exception from either call is rethrown as is, with no retry after it and no captions; otherwise the captions come from the last answer |
| WhisperClient.RetryOnlyWhenEmpty | src/lib/whisper-client.ts:80-89 | an answer that triggers the retry would itself have produced no captions |
| WhisperClient.BlankChunksAreNotRetried | src/lib/whisper-client.ts:80-117 | the converse fails: an answer with only blank chunks and non-empty text is not retried and yields no captions |
| RemotionWhisperClient.Transcribe | remotion-captions/src/lib/whisper-client.ts:63-105 | exactly one recogniser call, with no retry; an exception from it is rethrown with no captions; otherwise the captions are the same chunk filter-map or whole-text caption, at most one per chunk |
| GenerateCaptions.FormatChunksStrict | remotion-captions/src/app/api/generate-captions/route.ts:58-71 | the route's loop fails iff some chunk has no `timestamp`, blank or not; otherwise it yields the shared filter-map |
| GenerateCaptions.Post | remotion-captions/src/app/api/generate-captions/route.ts:47-102 | a recogniser failure or a chunk without `timestamp` turns the whole response into the fallback list with an error field, never a partial list; otherwise the response holds the shared captions |
| GenerateCaptions.FallbackTiles | remotion-captions/src/app/api/generate-captions/route.ts:92-96 | the fallback list is three contiguous captions of exactly 3 s tiling `[0, 9]` |
| WhisperCppClient.Truncate | src/lib/whisper-cpp-client.ts:95-99 | the audio passed on is the prefix of length `min(len, 960000)` |
| WhisperCppClient.TruncateCases | src/lib/whisper-cpp-client.ts:95-99 | short audio is unchanged, long audio is cut to exactly 960000 samples, and cutting twice equals cutting once |
| WhisperCppClient.ConvertSegments | src/lib/whisper-cpp-client.ts:126-132 | one caption per segment, in order, with no filtering |
| WhisperCppClient.FormatCaptions | src/lib/whisper-cpp-client.ts:123-142 | the conversion equals the per-segment list when `segments` is present, else the whole-text caption, else nothing |
| WhisperCppClient.PerformTranscription | src/lib/whisper-cpp-client.ts:95-143 | the recogniser sees the truncated audio; `auto` comes first, and `hi` follows iff the first result arrives with falsy text and no or empty segments, at most once; an exception from either call propagates with no retry after it and no captions; otherwise the captions come from the last result |
| WhisperCppClient.SegmentTimes | src/lib/whisper-cpp-client.ts:127-131 | truthy times are copied unrounded; a falsy start becomes 0; a falsy end, 0 included, becomes the caption's start + 2 |
| WhisperCppClient.ZeroEndIsMissing | src/lib/whisper-cpp-client.ts:129 | unlike `??`, `||` treats an end of 0 as missing: `{1, 0}` ends at 3 |
| WhisperCppClient.BlankSegmentKept | src/lib/whisper-cpp-client.ts:126-132 | a segment without text still yields a caption, with empty text |
| WhisperCppClient.EmptySegmentsHideText | src/lib/whisper-cpp-client.ts:125-133 | a present but empty `segments` array yields nothing, whatever the text |
| WhisperCppClient.NoSegmentsFallback | src/lib/whisper-cpp-client.ts:133-142 | without segments, truthy text yields `{0, 5, trim(text)}` and no text yields nothing |
| WhisperCppClient.SegmentEndNaN | src/lib/whisper-cpp-client.ts:129 | as written, a segment with text but no times ends at NaN; the corrected end is 2 |
| WhisperCppClient.SegmentEndAgrees | src/lib/whisper-cpp-client.ts:129 | the correction agrees with the code whenever the segment reports a start, and the code gives NaN exactly when start is missing and end is falsy |
| DemoTranscribe.RescaleTiles | remotion-captions/src/lib/transcribe.ts:38-45 | rescaling any non-empty list of n captions to duration d keeps the texts in order, tiles `[0, d]` without gaps, gives each entry length d/n, and has `end > start` when d > 0 |
| DemoTranscribe.ScaledTiles | remotion-captions/src/lib/transcribe.ts:38-45 | the scaled list has the demo's 10 entries and texts in order, tiles `[0, d]` without gaps, gives every entry length d/10, and has `end > start` when d > 0 |
| DemoTranscribe.ScaledToTwenty | remotion-captions/src/lib/transcribe.ts:11-45 | scaling to 20 s reproduces `DEMO_CAPTIONS` exactly |
| DemoTranscribe.DemoTilesTwenty | remotion-captions/src/lib/transcribe.ts:11-22 | `DEMO_CAPTIONS` is ten contiguous 2-second captions from 0 to 20 |
| DemoTranscribe.TranscribeVideoCases | remotion-captions/src/lib/transcribe.ts:33-53 | the timer fallback is the unscaled demo list; loaded metadata gives a list tiling `[0, duration]` |
| Overlay.Interpolate | src/remotion/CaptionRenderer.tsx:23-28 | the clamped `interpolate` is in [0, 1], 0 up to the range start, 1 from the range end on, and linear in between |
| Overlay.InterpolateMonotone | src/remotion/CaptionRenderer.tsx:41-46 | the clamped ramp never decreases as time grows |
| Overlay.EntranceRamp | src/remotion/CaptionRenderer.tsx:23-28 | entrance progress is 0 for `t <= start`, 1 for `t >= start + 0.3`, within [0, 1] and non-decreasing |
| Overlay.KaraokeRamp | src/remotion/CaptionRenderer.tsx:41-46 | karaoke progress is 0 at start, 1 at end, within [0, 1] and non-decreasing in t |
| CaptionRenderer.HighlightedChars | src/remotion/CaptionRenderer.tsx:115-116 | `floor(prog·len)` lies in [0, len], is 0 at progress 0 and len at progress 1 |
| CaptionRenderer.Render | src/remotion/CaptionRenderer.tsx:111-147 | every style takes the style's constants and opacity = entrance progress; karaoke renders exactly `len` spans whose characters concatenate to the text, with span i lit iff `i < highlightedChars`; a lit span is drawn in `#ffdd44` and an unlit one in the translucent white |
| CaptionRenderer.LitSpansArePrefix | src/remotion/CaptionRenderer.tsx:125-129 | the lit spans always form a prefix of the text |
| CaptionRenderer.HighlightGrows | src/remotion/CaptionRenderer.tsx:114-116 | the lit prefix never shrinks as time advances; nothing is lit up to the start and everything from the end on |
| CaptionRenderer.FontSizes | src/remotion/CaptionRenderer.tsx:48-107 | font sizes are bottom 36, top 32 and karaoke 38; top has the accent border and karaoke no background |
| RemotionCaptionRenderer.Render | remotion-captions/src/remotion/CaptionRenderer.tsx:104-152 | both branches set opacity = entrance progress; only karaoke has a fill, within [0, 100], 0 at start and 100 from the end on, and in between exactly `100·(t − start)/(end − start)` percent, the `karaokeProg * 100` width |
| RemotionCaptionRenderer.FillGrows | remotion-captions/src/remotion/CaptionRenderer.tsx:127-131 | the karaoke fill width never shrinks as time advances |
| RemotionCaptionRenderer.FontSizes | remotion-captions/src/remotion/CaptionRenderer.tsx:48-101 | font sizes are bottom 48, top 42 and karaoke 52; top has the accent border and karaoke no background |
| CaptionedVideo.Compose | remotion-captions/src/remotion/CaptionedVideo.tsx:22-48 | with t = frame/fps, nothing is rendered iff no caption shows at t; otherwise the renderer gets the text, start and end of the first caption in list order that contains t, inclusive |
| CaptionedVideo.ComposeExample | remotion-captions/src/remotion/CaptionedVideo.tsx:24-29 | frame 45 at 30 fps is t = 1.5; of two captions showing then, the one listed first is rendered although the other starts earlier |
| VideoExport.FontSize | src/lib/video-export.ts:121 | the font size is the larger of 24 and width/40, so at least 24 |
| VideoExport.StopDelay | src/lib/video-export.ts:101-107 | the forced-stop delay is the smaller of duration·1000 and 120000 ms, so never above 120000 |
| VideoExport.StopDelayExamples | src/lib/video-export.ts:107 | a 300 s source is stopped after 120000 ms, a 10 s one after 10000 ms |
| VideoExport.RenderFrame | src/lib/video-export.ts:74-95 | a frame stops the recorder iff the video is ended or paused; otherwise it is drawn with no caption iff none shows at the current time, else with the first showing caption in list order |
| VideoExport.RenderLoop | src/lib/video-export.ts:74-99 | every state before the first ended-or-paused one is drawn, in order; the recorder is stopped exactly when such a state is reached |
| VideoExport.FontScales | src/lib/video-export.ts:121-131 | the font follows width/40 exactly when the frame is at least 960 px wide; text height equals font size; the anchor x is width/2 |
| VideoExport.BottomBoxCentred | src/lib/video-export.ts:135-150 | bottom style: the anchor y is 0.88·height and one box of size (tw + 40, fs + 20) is centred on the anchor |
| VideoExport.TopBarHoldsAccent | src/lib/video-export.ts:152-166 | top style: the anchor y is 0.15·height; the bar spans the full width with height fs + 30, centred on the anchor; the 4 px accent line lies inside the bar |
| VideoExport.KaraokeUnboxed | src/lib/video-export.ts:168-184 | karaoke style: the anchor y is 0.85·height, with no background, an outline, and a gradient spanning exactly the text width centred on the anchor |

## Findings

| source | as written | input that shows it | evidently intended | confidence | as-written member | corrected member |
|---|---|---|---|---|---|---|
| src/lib/whisper-cpp-client.ts:129 | `end: segment.end \|\| segment.start + 2` | a segment `{ text: "hi" }` with no `start` and no (or a zero) `end`: `undefined + 2` is NaN, so `currentTime <= end` never holds and the caption never shows | `end: segment.end \|\| (segment.start \|\| 0) + 2`, the same default as the start on line 128 | medium, not executed | WhisperCppClient.SegmentEndNaN | WhisperCppClient.SegmentTimes |

`WhisperCppClient.SegmentEndAsWritten` models line 129 as written, with None standing for NaN. `WhisperCppClient.SegmentEnd` is the corrected definition, and the rest of the model uses it. `WhisperCppClient.SegmentEndAgrees` shows the two agree whenever the segment reports a start.

## Left out

- Model loading is not modelled: `loadModel` and `loadWhisperCpp`, with their busy-wait `isLoading` polling, and the route's cached `getWhisperPipeline`. It is asynchronous interleaving, and each recogniser is a parameter instead. A loading exception propagates out of the transcribers just as a recogniser `Failure` does, but before any request.
- Timers are not modelled: the two-minute `Promise.race` in `transcribeAudio`, the two-second delay in `transcribeVideo`, and the scheduling of the exporter's `setTimeout`. The forced stop's delay is modelled (`VideoExport.StopDelay`); when it fires relative to frames is not.
- The export plumbing is not modelled: canvas capture, MediaRecorder and its chunk and stop handlers, the AudioContext audio path with its video-only fallback, `drawImage`, and `requestAnimationFrame`. These are browser media I/O. `VideoExport.RenderLoop` takes the successive playback states as input.
- The spring entrance scale in both renderers is not modelled. It is Remotion's physics routine over floats.
- Audio extraction from video (`extractAudioFromVideo`, the studio's audio extractor) and `new Float32Array(arrayBuffer)` are not modelled. They are Web Audio I/O and byte reinterpretation.
- Not modelled: form parsing and the 400 response of the caption route, JSON serialisation, the export-video route, the API transcriber, and the UI with its demo lists. These are server, network and UI code. There is no serialiser in the core, so no JSON round trip is stated.
- CSS details other than placement, font size, background, accent border and the two karaoke character colours are not modelled: padding, radius, other colours, shadows and fonts. Neither are canvas colours other than those recorded in `VideoExport.Drawing`.
- Floating point is not modelled. Times are reals, so there are no NaN or infinite durations, no Float32 sample precision, and no binary rounding of `0.04·10`.
- Overlay.Interpolate: requires a strictly increasing input range. Remotion's `interpolate` rejects any other range, and that code is not part of this model.
- Overlay.KaraokeProgress: requires `start < end`, for the same reason. A caption of zero length (for example, from rounding) is outside the model's renderers.
- CaptionRenderer.Render: requires `captionStart < captionEnd`. The karaoke `interpolate` runs for every style. The converters can produce a zero-length caption (`Asr.RoundingCollapses`), and for it the source's renderer fails inside `interpolate`. The model does not say what happens then.
- CaptionRenderer.Render: text with characters outside the Basic Multilingual Plane (an emoji, say) cannot be represented. JavaScript counts such a character as two UTF-16 code units, and `split('')` turns it into two spans, each holding a lone surrogate. A Dafny `char` cannot hold a lone surrogate.
- RemotionCaptionRenderer.Render: requires `captionStart < captionEnd`, for the same reason.
- CaptionedVideo.Compose: requires `fps > 0`, which Remotion's video config guarantees. It returns the renderer's props rather than calling the renderer.
- WhisperCppClient.ConvertSegments: uses the corrected end `SegmentEnd`. So a segment with no start and a falsy end gets end 2, where line 129 as written gives NaN. `SegmentEndAsWritten` models the value as written (see "## Findings").
- WhisperCppClient.FormatCaptions: the same corrected end as `ConvertSegments`, so it differs from the code only in that NaN case.
- WhisperCppClient.PerformTranscription: the same corrected end as `ConvertSegments`, so it differs from the code only in that NaN case.
- WhisperCppClient.SegmentTimes: null and undefined segment times are not told apart. A missing time is None. A JSON `null` start behaves like 0 in both `||` and `+ 2`, so it is modelled as 0.
- GenerateCaptions.Post: only the exception from a missing `timestamp` is modelled inside the loop. Its `details` field is that exception's message: the V8 text for the chunk loop, or the recogniser's message. A missing `timestamp` is None whether it was `undefined` or `null`, and the model always gives the `undefined` message. For a `null` timestamp, V8's message ends in `of null (reading '0')` instead. The `note` field of a successful response is not modelled.

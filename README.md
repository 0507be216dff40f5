# LinkedPost AI: the generate endpoint and the page that drives it

This project models the two pieces of sequential logic in the LinkedPost AI app, and proves properties of them in Dafny.

- **The POST handler of `/api/generate`** (`src/app/api/generate/route.ts`).
  - It rejects an absent source text, or one shorter than 10 after `trim()`, with a 400 JSON error. No call to the generation service is made in that case.
  - It resolves the tone through the three-entry `TONE_MODIFIERS` table. An unknown tone falls back to the professional entry.
  - It builds the system prompt from a fixed template around the tone line, and the user message as a fixed prefix followed by the source text.
  - It relays the service's event stream: every `content_block_delta`/`text_delta` text is encoded and enqueued on the response stream, in order. The stream is closed exactly once, whether or not the iteration throws.
- **The client session** (`src/app/page.tsx`).
  - `handleGenerate` sets the loading flag, clears the post and sets progress to 10. It sets progress to 40 once the response is there.
  - It then pulls chunks. Each chunk is decoded on its own and appended, and progress moves to `min(prev + 1, 95)`. When the reader reports done, progress goes to 100.
  - Its `finally` clears the loading flag and schedules a reset of progress to 0.
  - `copyToClipboard` writes the current post, sets the copied flag and schedules its reset.
  - The generate button is disabled while loading or while the source text is empty.

Modules:

- `Wrappers`: `Option`.
- `Sequences`: associativity of sequence concatenation, used by the stateful proofs.
- `Js`: the JavaScript built-ins the handler relies on.
  - `String.prototype.trim`, over the ECMA-262 WhiteSpace and LineTerminator characters.
  - The `length` of a string in UTF-16 code units.
  - Bytes.
- `Streams`: a `ReadableStream` controller. It is a class with the queue of enqueued chunks, a `closed` flag and a count of close calls.
- `Route`: the handler.
  - Input gate, tone table, prompt template and upstream request.
  - Event types and the relay method.
  - `Post`, whose out-parameter `calls` lists the requests sent to the generation service.
- `Page`: the session. It is a class whose fields are the page's `useState` variables and its pending timers, with one method per event.
  - The events: trigger, response obtained, chunk read, done, transport error, settle, progress reset, copy, copy reset.
  - The pull loop, the try and catch blocks, the whole `handleGenerate` run, and the guarded button presses.
  - A ghost `phase` tracks the run (Idle, Requesting, Streaming, Completed, Failed), and a ghost `progressLog` records every value progress takes.
- `Pipeline`: lemmas about the handler's bodies as the page reads them.

External behaviour is passed in as parameters.
- The generation service is a function from the request to the events it streams. It includes whether the iteration throws after them.
- `TextEncoder.encode` and `TextDecoder.decode` are function-valued parameters. Where the two must fit together, `Js.Utf8Pair` says what one decode call gives back for an encoded string: the string less one leading U+FEFF.
- A fetch is a `Transport` value: a rejection, or a response whose body may be null. A body is a chunk sequence, plus whether the read after the last chunk throws.

In four places the code does something one might not expect.
- The minimum length counts UTF-16 code units, not characters. Five emoji pass the gate (`Route.GateCountsAstralTwice`). The model follows the code.
- The page decodes each chunk separately, with a fresh decoder state per call. A chunk whose text starts with U+FEFF loses that character (`Pipeline.LeadingByteOrderMarkLost`). The model follows the code.
- The page never checks the response status (`Pipeline.RejectionShownAsPost`). The model follows the code.
- The tone fallback does not cover keys that a plain object inherits. The model has both the lookup as written (`Route.ToneInstructionAsWritten`, `Route.BuildRequestAsWritten`) and the corrected one (`Route.ResolveTone`), and `Route.BuildRequest` and `Route.Post` use the corrected one (see Findings and Left out).

## Model

| member | source | states |
|---|---|---|
| `Js.TrimStart` | src/app/api/generate/route.ts:18 | result is the suffix left after removing a whitespace-only prefix, and it does not start with whitespace |
| `Js.TrimEnd` | src/app/api/generate/route.ts:18 | result is the prefix left after removing a whitespace-only suffix, and it does not end with whitespace |
| `Js.TrimEmptyIffWhitespace` | src/app/api/generate/route.ts:18 | `trim()` returns the empty string if and only if the input is all whitespace |
| `Js.TrimSlice` | src/app/api/generate/route.ts:18 | `trim()` returns a slice `s[i..j]` of its input; only whitespace lies outside the slice, and the slice has no whitespace at either end |
| `Js.TrimEnds` | src/app/api/generate/route.ts:18 | the trimmed text neither starts nor ends with whitespace |
| `Js.TrimKeepsBmp` | src/app/api/generate/route.ts:18 | trimming text inside the Basic Multilingual Plane gives text whose `length` is its character count |
| `Js.TrimIgnoresPadding` | src/app/api/generate/route.ts:18 | whitespace added before and after a string never changes what `trim()` returns |
| `Js.TrimIdempotent` | src/app/api/generate/route.ts:18 | trimming twice gives the same result as trimming once |
| `Js.Utf16Length` | src/app/api/generate/route.ts:18 | a string's `length` lies between its character count and twice that count, and equals the character count when every character is in the Basic Multilingual Plane |
| `Js.AstralLength` | src/app/api/generate/route.ts:18 | characters above the Basic Multilingual Plane count two code units each |
| `Route.TooShort` | src/app/api/generate/route.ts:18 | the rejection test as written; a whitespace-only source text is always rejected |
| `Route.GateBoundary` | src/app/api/generate/route.ts:18-22 | the boundary as written: a present source text passes exactly when `trim().length` is 10 or more, the empty string needing no case of its own |
| `Route.GateIgnoresPadding` | src/app/api/generate/route.ts:18 | leading and trailing whitespace never decide whether the source text is rejected |
| `Route.GateCountsCharacters` | src/app/api/generate/route.ts:18 | for text inside the Basic Multilingual Plane, rejection happens exactly when the trimmed text has fewer than 10 characters |
| `Route.GateCountsAstralTwice` | src/app/api/generate/route.ts:18 | for text made only of astral characters, rejection happens exactly when twice its length is below 10 |
| `Route.ResolveTone` | src/app/api/generate/route.ts:25 | the instruction is always one of the three table entries; `professional`, `creative` and `bold` each get their own entry, and an absent or other tone gets the professional one |
| `Route.ToneChoiceDistinguishable` | src/app/api/generate/route.ts:6-13 | the three table keys give three different instructions |
| `Route.ReadToneProperty` | src/app/api/generate/route.ts:25 | reading a key of the tone object literal yields undefined exactly for keys that are neither own entries, nor `Object.prototype` methods, nor `__proto__`; it yields an own string exactly for the three table keys |
| `Route.Interpolate` | src/app/api/generate/route.ts:29 | a string value is interpolated into the template unchanged |
| `Route.ToneInstructionAsWritten` | src/app/api/generate/route.ts:25 | the lookup as written, `TONE_MODIFIERS[tone] ?? professional` on a plain object, agrees with `ResolveTone` on every key that `Object.prototype` does not supply |
| `Route.InheritedToneEscapesTable` | src/app/api/generate/route.ts:25 | as written, tone `constructor` puts the text of the Object constructor, `function Object() { [native code] }`, in the tone line |
| `Route.InheritedToneMissesFallback` | src/app/api/generate/route.ts:25 | for tone `constructor` the intended lookup gives the professional entry, and the lookup as written gives something else |
| `Route.PrototypeToneEscapesTable` | src/app/api/generate/route.ts:25 | as written, tone `__proto__` puts `[object Object]` in the tone line |
| `Route.SystemPrompt` | src/app/api/generate/route.ts:27-41 | the system prompt is the fixed head, then the tone instruction, then the fixed tail, and the instruction can be read back out of it |
| `Route.UserMessage` | src/app/api/generate/route.ts:54 | the user message is the fixed prefix followed by the source text verbatim and untrimmed, which can be read back out of it |
| `Route.BuildRequest` | src/app/api/generate/route.ts:47-57 | the upstream request carries the fixed model name and token limit, a system prompt whose tone slot is the resolved tone, and exactly one user message that holds the source text |
| `Route.BuildRequestAsWritten` | src/app/api/generate/route.ts:25-57 | the request as the handler builds it carries the as-written tone instruction in its tone slot, and equals `BuildRequest`'s request whenever the tone is not a key that `Object.prototype` supplies |
| `Route.TextDeltas` | src/app/api/generate/route.ts:63-70 | at most one relayed text per event |
| `Route.TextDeltasAppend` | src/app/api/generate/route.ts:63-70 | the texts relayed from two consecutive parts of the stream are the first part's texts followed by the second's, so order is kept and nothing is duplicated |
| `Route.TextDeltaMembership` | src/app/api/generate/route.ts:64-68 | a text is relayed if and only if some `content_block_delta`/`text_delta` event carries it |
| `Route.OnlyTextDeltasRelayed` | src/app/api/generate/route.ts:64-67 | a stream with no text-delta events relays nothing |
| `Route.TruncatedStreamRelaysPrefix` | src/app/api/generate/route.ts:62-73 | a stream cut short after k events relays a prefix of what the whole stream relays |
| `Route.EncodeAll` | src/app/api/generate/route.ts:68 | one enqueued chunk per relayed text; chunk i is the encoding of text i |
| `Route.EncodeAllAppend` | src/app/api/generate/route.ts:68 | the chunks enqueued for two runs of texts are those of the first run, then those of the second |
| `Route.RelayedBytes` | src/app/api/generate/route.ts:61-68 | with an encoder that maps concatenation to concatenation, the body's bytes are the encoding of all relayed text joined together |
| `Route.Relay` | src/app/api/generate/route.ts:59-75 | the queue gains exactly the encoded text deltas, in order; the controller ends closed, with exactly one more close call; whether the iteration threw is reported |
| `Streams.Controller.constructor` | src/app/api/generate/route.ts:59-60 | a new stream is open, with an empty queue and no close call yet |
| `Streams.Controller.Enqueue` | src/app/api/generate/route.ts:68 | appends one chunk to an open stream's queue and changes nothing else |
| `Streams.Controller.Close` | src/app/api/generate/route.ts:71-73 | closes an open stream and counts the call; the queue stays as it was |
| `Route.Post` | src/app/api/generate/route.ts:15-83 | status 400 if and only if the gate rejects; on rejection the body is `{"error":"Source text is too short."}` and no upstream call is made; otherwise exactly one upstream call is made with the built request, and the response is a 200 text stream of that stream's encoded text deltas, closed |
| `Page.Session.constructor` | src/app/page.tsx:11-16 | the initial state: empty text, professional tone, empty post, not loading, not copied, progress 0 |
| `Page.Session.SetSourceText` | src/app/page.tsx:74 | sets the source text and nothing else |
| `Page.Session.SelectTone` | src/app/page.tsx:78-82 | sets the tone to one of the three button values and nothing else |
| `Page.Session.Trigger` | src/app/page.tsx:19-21 | loading becomes true, the post becomes empty and progress becomes 10; the request carries the current text and tone |
| `Page.Session.ResponseObtained` | src/app/page.tsx:30-32 | progress becomes 40 before any chunk is read |
| `Page.Session.ChunkRead` | src/app/page.tsx:37-38 | the chunk's decoding is appended to the post; progress becomes `min(prev + 1, 95)`, so it never decreases and never exceeds 95 |
| `Page.Session.StreamDone` | src/app/page.tsx:35-40 | progress becomes 100 when the reader reports done |
| `Page.Session.TransportError` | src/app/page.tsx:41-42 | a thrown fetch or read only ends the run as failed; the post and progress are left as they were |
| `Page.Session.Settle` | src/app/page.tsx:43-45 | loading ends false and one progress reset is scheduled, on both the success path and the error path |
| `Page.Session.ProgressResetFires` | src/app/page.tsx:45 | a scheduled reset sets progress to 0 |
| `Page.Session.PullLoop` | src/app/page.tsx:34-40 | after the loop the post is the in-order concatenation of the per-chunk decodings; progress takes the bumped values, then 100 only if the reader reported done |
| `Page.Session.Exchange` | src/app/page.tsx:23-42 | the try and catch blocks: the post is the per-chunk decoding of every chunk read; progress takes exactly the values after 10 in `ProgressSchedule`, whichever way fetch or the reader ends; the run ends completed or failed |
| `Page.Session.Generate` | src/app/page.tsx:18-47 | the whole run: the post equals the per-chunk decoding of every chunk read; progress goes through exactly `ProgressSchedule`; the run ends not loading, with one reset scheduled |
| `Page.Session.PressGenerate` | src/app/page.tsx:90-93 | while loading, or while the source text is empty, pressing generate changes nothing; otherwise it runs `handleGenerate` to its end: the request carries the current text and tone, the post is the decoded chunks read, progress follows the run's schedule and ends at its last value, loading is off and one progress reset is pending |
| `Page.Session.Copy` | src/app/page.tsx:49-53 | the clipboard receives exactly the current post, the copied flag is set and one reset is scheduled; nothing else changes |
| `Page.Session.PressCopy` | src/app/page.tsx:101-107 | with no post the copy button is absent and nothing changes; otherwise it copies |
| `Page.Session.CopyResetFires` | src/app/page.tsx:52 | the scheduled reset clears the copied flag and changes nothing else |
| `Page.Read` | src/app/page.tsx:35 | the n-th `reader.read()` yields a chunk exactly while chunks remain, and that chunk is the n-th; after them it reports done exactly when the body does not fail |
| `Page.Bump` | src/app/page.tsx:38 | `Math.min(prev + 1, 95)` never lowers a value up to 95 and never passes 95; below 95 it adds exactly one |
| `Page.Bumps` | src/app/page.tsx:38 | one progress value per chunk read |
| `Page.BumpsClosedForm` | src/app/page.tsx:38 | after i + 1 chunks, starting from p, progress is `min(p + i + 1, 95)` |
| `Page.BumpsSnoc` | src/app/page.tsx:38 | one more chunk adds exactly one bump, starting from the previous value |
| `Page.BumpsMonotoneBounded` | src/app/page.tsx:38 | while chunks arrive, progress never decreases and stays between its starting value and 95 |
| `Page.DecodeAllAppend` | src/app/page.tsx:37 | the post built from two runs of chunks is the first run's text followed by the second's |
| `Page.ScheduleMonotone` | src/app/page.tsx:19-40 | a run's progress starts at 10, is 40 once a response arrives, and never decreases |
| `Page.ScheduleHundredOnCompletion` | src/app/page.tsx:35-42 | progress reaches 100 if and only if the reader reported done, and only as the last step; before that every value is between 10 and 95 |
| `Page.StaleProgressReset` | src/app/page.tsx:45 | a reset scheduled by one run can fire while the next run is streaming, so progress falls from 40 to 0 |
| `Js.DropByteOrderMark` | src/app/page.tsx:31-37 | one `decode` call of a fresh `TextDecoder` on UTF-8 text removes at most one character, and changes the text exactly when it starts with U+FEFF |
| `Pipeline.ShownTexts` | src/app/page.tsx:37 | the page shows each relayed text less a leading U+FEFF, one text per chunk |
| `Pipeline.ShownTextsUnchanged` | src/app/page.tsx:37 | texts that do not start with U+FEFF are shown unchanged |
| `Pipeline.DecodeEncodedTexts` | src/app/page.tsx:31-37 | with `TextEncoder` and a fresh `TextDecoder` (`Js.Utf8Pair`), the page's chunk-by-chunk decoding of the relayed chunks gives the relayed texts joined together, each less a leading U+FEFF |
| `Pipeline.PageShowsRelayedText` | src/app/api/generate/route.ts:63-70 | with `TextEncoder` and a fresh `TextDecoder` (`Js.Utf8Pair`), a completed stream shows the text of the service's text deltas, in order, each less a leading U+FEFF (exactly their text when none starts with one), and progress ends at 100 |
| `Pipeline.LeadingByteOrderMarkLost` | src/app/page.tsx:37 | with `TextEncoder` and a fresh `TextDecoder`, a delta `"\uFEFFHi"` is shown as `Hi` |
| `Pipeline.RejectionShownAsPost` | src/app/page.tsx:24-37 | with `TextEncoder` and a fresh `TextDecoder`, the page never checks the status, so the 400 JSON error body is shown as the post and progress still reaches 100 |

## Findings

| source | as written | input that shows it | evidently intended | confidence | as-written member | corrected member |
|---|---|---|---|---|---|---|
| src/app/api/generate/route.ts:25 | `TONE_MODIFIERS[tone] ?? TONE_MODIFIERS.professional` on a plain object literal also finds the properties it inherits from `Object.prototype`; `??` replaces only `undefined` | tone `"constructor"` makes the tone line `function Object() { [native code] }`; tone `"__proto__"` makes it `[object Object]` | every tone other than the three table keys falls back to the professional instruction | not executed | `Route.InheritedToneMissesFallback` | `Route.ResolveTone` |

`Route.InheritedToneEscapesTable` and `Route.PrototypeToneEscapesTable` give the two tone lines exactly. `Route.Post` and `Route.BuildRequest` use the corrected `Route.ResolveTone`.

## Left out

- The generation service call: the SDK client, the API key and the network. The service is a parameter that returns the events for a request, plus whether iterating them throws after the last one. An error thrown when the stream is opened is not modelled.
- `export const runtime` and `dynamic`, and the response framing. This includes the `Content-Type` that `new Response` gives a body on its own.
- `req.json()`: the source text and tone arrive as `Option<string>`. A body that is not JSON, or a truthy non-string source text, makes the handler throw. Those cases, and non-string tones turned into property keys, are not modelled.
- `TextEncoder` and `TextDecoder` are function parameters. Dafny strings cannot hold lone surrogates, so how JavaScript encodes them is not modelled. Nothing is claimed about decoding the whole body at once.
- `Route.BuildRequest`: puts the corrected `Route.ResolveTone` into the tone slot. For a tone that names a key `Object.prototype` supplies (`constructor`, `toString`, `__proto__` and the rest), the handler sends the as-written instruction instead. `Route.BuildRequestAsWritten` gives that request and agrees with `Route.BuildRequest` on every other tone.
- `Route.Post`: builds its request with `Route.BuildRequest`, so for the same inherited-key tones its `calls` hold the corrected request rather than the one the handler sends.
- Cancellation of the response stream by its reader is not modelled. After a cancel, `controller.enqueue` throws, and then `controller.close()` in the `finally` throws too. So `Route.Relay`'s "closed exactly once" holds only for a reader that never cancels.
- The Streams runtime. The model records that `start()` rejected after closing the stream. It does not say what a reader then sees of chunks it has not read yet. Backpressure is not modelled.
- The `Pipeline` lemmas assume each enqueued chunk reaches the reader as one chunk. The network may split or merge chunks, and that is not modelled.
- Async and await are not modelled. `Page.Session.Generate` runs `handleGenerate` as one uninterrupted sequence. The event methods let timers fire only at an await point or between runs, as `Page.StaleProgressReset` does. React's batching of state updates is not modelled.
- `setTimeout` delays (500 ms and 2000 ms) are not modelled. Timers are pending counts, and firing one is an explicit event.
- `console.error`, rendering, layout and icons are not modelled. The progress bar's `progress > 0` display condition is UI only.
- `navigator.clipboard.writeText` is asynchronous and may reject. The model records only the text passed to it.

# FirstStrike plan, recon and audio clients in Dafny

FirstStrike is a browser dashboard for incident command. It asks a remote
generative model for a command plan, a reconnaissance image and a spoken
briefing. This project models what the dashboard's service class
(`services/geminiService.ts`) does around those remote calls, and proves
properties of it:

- **Plan reply normalisation** (`PlanClient.GenerateCommandPlan`). The regular
  expression `/\{[\s\S]*\}/` picks a JSON region out of the reply text.
  `JSON.parse` reads it. Missing lists and a missing summary are filled in.
  Anything unusable falls back to the fixed-shape plan of `createFallbackPlan`.
  The reply's grounding metadata is attached to the result.
- **Failure classification**. A failed call whose message contains `429` or
  `RESOURCE_EXHAUSTED` gives the offline plan tagged `QUOTA_LIMIT`. Any other
  failure gives the untagged "link disrupted" plan. The call never fails.
- **Recon image** (`ReconClient.SatelliteImageUri`). The first content part
  that carries inline data becomes a `data:` URI.
- **Audio** (`AudioClient`). `base64ToUint8` stores each character code of the
  `atob` output into a byte array. `decodeAudioData` reads those bytes as
  little-endian 16-bit samples, deinterleaves them by channel and divides each
  by 32768. `generateAudioBriefing` decodes the payload as 24 kHz mono.

Modules: `Wrappers` (Option, Result), `Types` (the shapes of `types.ts`),
`JsStrings` (the JavaScript string built-ins the service relies on),
`PlanClient`, `ReconClient` and `AudioClient`.

The remote calls are inputs. A plan call is a `CallOutcome`: either a reply
(its text and the first candidate's grounding metadata) or a failure with an
optional message. `JSON.parse` and `atob` are function parameters whose `None`
result stands for the exception they throw.

What the code does at the points where a reader could expect otherwise:

- The regular expression is greedy. It takes the text from the FIRST `{`
  through the LAST `}`, so two objects in one reply make one region that
  usually fails to parse. `JsonMatch` and `JsonMatchIsLeftmostGreedy` state
  exactly that.
- The summary is backfilled when it is empty as well as when it is absent
  (`!data.summary`).
- A list is backfilled when it is `null` or falsy as well as when it is absent
  (`||`).
- Every key of the parsed object is spread into the result. So a reply whose
  JSON carries its own `error` key passes it through (`ParsedPlan.error`).
- `decodeAudioData` throws on some inputs. An odd byte count makes
  `new Int16Array` throw `RangeError`. An empty buffer makes `createBuffer`
  throw `NotSupportedError`. `generateAudioBriefing` turns both into `null`.
  The model carries these errors as results.

## Model

| member | source | states |
|---|---|---|
| PlanClient.FallbackPlan | services/geminiService.ts:92-99 | the summary is the longest prefix of the raw text of at most 500 characters, or "Awaiting tactical assessment..." for empty text, so it is never empty; the steps are exactly the two manual-protocol lines, allocations are empty, risks are exactly "Automatic synthesis degraded" |
| PlanClient.JsonMatch | services/geminiService.ts:58 | a region exists iff some `}` follows some `{`; when it does, it runs from the first `{` (no `{` before it) through the last `}` (no `}` after it), inclusive |
| PlanClient.JsonMatchIsLeftmostGreedy | services/geminiService.ts:58 | the region equals the match a backtracking engine gives for `\{[\s\S]*\}`: the earliest start where the pattern matches, then the longest match from there; there is no region iff no substring matches the pattern |
| PlanClient.JsonMatchOfWrappedObject | services/geminiService.ts:57-68 | one object wrapped in prose without `{` and a trailer without `}` is extracted exactly, and the text before its first `{` is the prose |
| PlanClient.GenerateCommandPlan | services/geminiService.ts:54-89 | the reply text is `response.text` or "" (`ReplyText`, line 54) and its parsed region is `JSON.parse` of the `JsonMatch` region (`ParsedRegion`, lines 58-63); a reply keeps its grounding; with no region or a region that fails to parse, the plan is the fallback of the whole reply text, untagged; with a parsed region, absent lists become empty and present values are kept, a present non-empty summary is kept, otherwise the summary is the trimmed prose before the first `{`, or "Plan synthesized." when that prose is all white space; the parsed `error` key passes through; a failure carries no grounding and is tagged QUOTA_LIMIT with the offline plan exactly when its message contains 429 or RESOURCE_EXHAUSTED (`IsQuotaMessage`, line 82), else it gives the untagged link-disrupted plan, and a missing message counts as empty; every summary is non-empty |
| PlanClient.QuotaScenario | services/geminiService.ts:79-88 | a call failing with "429 RESOURCE_EXHAUSTED" yields exactly the offline summary, the two fixed steps, no allocations, the fixed risk, the QUOTA_LIMIT tag and no grounding |
| JsStrings.Includes | services/geminiService.ts:82 | `includes` holds iff the pattern occurs at some position of the message |
| JsStrings.Trim | services/geminiService.ts:68 | `trim` yields a run of the input with only white space around it and none at its ends; it is empty iff the input is all white space |
| JsStrings.SplitHead | services/geminiService.ts:68 | `split('{')[0]` is the longest prefix holding no `{`: a prefix without the separator, followed by the separator when shorter than the input |
| JsStrings.SlicePrefix | services/geminiService.ts:94 | `slice(0, n)` is a prefix of length min(n, length) |
| ReconClient.SatelliteImageUri | services/geminiService.ts:111-118 | a URI is returned iff some part carries inline data, and it is the `data:` URI of the first such part; a response without parts gives none |
| ReconClient.DataUri | services/geminiService.ts:113 | the URI is `data:`, the media type, `;base64,` and the payload, in that order, and nothing else |
| AudioClient.Base64ToUint8 | services/geminiService.ts:146-151 | fails iff `atob` fails; otherwise a fresh array equal to `BinaryBytes` of the binary string: as long as it, byte i being the code of character i modulo 256 (line 149) |
| AudioClient.Int16At | services/geminiService.ts:154 | sample k lies in [-32768, 32767] and is the two's-complement value of the little-endian byte pair at 2k, 2k+1 |
| AudioClient.Normalize | services/geminiService.ts:161 | the scaled sample lies in [-1, 1), multiplying it by 32768 gives the sample back, and it is zero iff the sample is |
| AudioClient.Int16RoundTrip | services/geminiService.ts:154 | reading back the two bytes a 16-bit sample is written as gives the sample |
| AudioClient.DecodeEncodedPcm | services/geminiService.ts:154 | decoding little-endian PCM bytes recovers every sample they were encoded from |
| AudioClient.SilenceDecodesToSilence | services/geminiService.ts:154-161 | all-zero bytes decode to all-zero normalised samples |
| AudioClient.FrameInRange | services/geminiService.ts:155-161 | frame i of channel c, for i below the frame count, reads sample i * channels + c, which lies inside the sample sequence |
| AudioClient.InterleavedSample | services/geminiService.ts:161 | the value written to frame i of channel c lies in [-1, 1) |
| AudioClient.AudioBuffer.constructor | services/geminiService.ts:156 | createBuffer gives a fresh silent buffer with the requested channels, length and rate |
| AudioClient.DecodeAudioData | services/geminiService.ts:153-165 | an odd byte count raises RangeError; arguments createBuffer refuses (`CanCreateBuffer`, line 156: channels outside 1..32, no whole frame, rate outside 3000..768000) raise NotSupportedError; otherwise a fresh buffer at the given rate, with the given channels and `FrameCount` = floor(bytes / 2 / channels) frames (line 155), whose frame i of channel c is sample i * channels + c divided by 32768 |
| AudioClient.GenerateAudioBriefing | services/geminiService.ts:136-143 | a buffer is returned iff the payload is present and non-empty, `atob` accepts it and it decodes to an even, non-zero number of bytes; the buffer is 24000 Hz mono with floor(bytes / 2) frames, and frame i is the little-endian sample at bytes 2i, 2i+1 divided by 32768 |

## Left out

- The remote calls (`ai.models.generateContent` for text, image and speech), `getAI` and the API key. They are network calls into a foreign SDK. Their replies are inputs.
- Prompt construction (`JSON.stringify` of incidents, resources and location, the tool and retrieval configuration). It only shapes the outbound request. `Types` transcribes the incident and resource shapes, but no operation reads them.
- `JSON.parse`. It is a foreign parser, modelled as the parameter `parse`. JSON grammar is not modelled.
- `atob`. It is a browser function, modelled as the parameter `atob`. Forgiving base64 decoding is not modelled.
- PlanClient.GenerateCommandPlan: a parsed key is either of its schema type or absent. A key of another type (a number summary, a string for a list) is not modelled. Keys other than the four fields and `error` are not carried in the result.
- PlanClient.GenerateCommandPlan: `console.error` logging on the failure path. It is I/O.
- JsStrings.SlicePrefix: counts Unicode scalar values, while JavaScript counts UTF-16 code units. Summaries of text with characters outside the Basic Multilingual Plane can differ in length.
- AudioClient.Base64ToUint8: takes `charCodeAt` as the character's scalar value. JavaScript gives UTF-16 code units. The two agree on everything `atob` can produce, whose codes are all below 256.
- AudioClient.DecodeAudioData: samples are reals. This loses nothing: a 16-bit sample divided by 32768 needs at most 16 significant bits, so Float32 holds it exactly.
- AudioClient.DecodeAudioData: the rate range 3000..768000 is one engine's. The Web Audio API only requires createBuffer to accept 8000..96000, and implementations differ outside that.
- AudioClient.DecodeAudioData: assumes a little-endian platform for `Int16Array`, as every browser is in practice.
- AudioClient.DecodeAudioData: takes the upper channel limit as 32, the minimum every Web Audio implementation supports. An implementation may accept more.
- AudioClient.DecodeAudioData: a non-integral `frameCount` is taken as its floor. JavaScript truncates it when creating the buffer and ignores the loop's extra writes past the end, which comes to the same contents.
- Creating the `AudioContext`, playback, stopping and the `isSpeaking` flag. These are asynchronous browser APIs.
- The UI (`App.tsx`, `components/`), the geolocation effect and overlapping plan requests where the last one to resolve wins. These are presentation and event-loop concurrency.
- `constants.ts`. It holds mock data and prompt text only.

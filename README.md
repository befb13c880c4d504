# Voice assistant front end: a Dafny model of its state machines

The system is a browser voice assistant. It turns microphone speech into
text with the host's speech-recognition API, relays the text to an
automation webhook through a proxy route, polls a one-slot result store for
the reply, and speaks the reply with the host's speech-synthesis API. It has
no algorithmic core. What it does have is five small sequential pieces of
state handling, and this project models and verifies each of them:

- **Speech-recognition controller** (`useSpeechRecognition`), module
  `SpeechRecognition`. The class `Recognizer` has one method per user action
  (start, stop) and one per host event (result, end, error). It also has a
  method for the effect that starts or stops the host session whenever
  `isListening` changes. The `onresult` transcript is a pure function over the
  delivered results. Host calls are recorded in a `hostCalls` log. A flag
  parameter says whether a host call throws; a call that throws is still
  logged, in this controller and in the synthesis one.
- **Speech-synthesis controller** (`useSpeechSynthesis`), module
  `SpeechSynthesis`. The voice catalog filter, the default voice and the
  utterance voice are pure functions. The class `Synthesizer` holds the
  `isSpeaking`/`isPaused` flags, the utterance, and a log of host calls. Its
  invariant is "paused implies speaking".
- **Result store** (`/api/receive-result`), module `ReceiveResult`. The
  class `ResultStore` holds the module-level slot `messageOutput`. Its handler
  is proved against the pure function `Answer`, and last-write-wins is proved
  over any sequence of requests.
- **Webhook proxy** (`/api/webhook-proxy`), module `WebhookProxy`. This
  covers method dispatch, the CORS headers, and relaying the downstream's
  reply. The downstream is modelled as an outcome datatype.
- **Result polling** (`TextToSpeech` component), module `TextToSpeech`. This
  is a loop over the events the polling effect observes, plus the auto-speak
  effect.

Supporting modules:

- `Wrappers`: `Option`.
- `Lists`: a first-index search.
- `Text`: `includes` and `trim` with their characterisations.
- `Http`: JSON values, JavaScript falsiness, object destructuring, and the
  mutable response object.

In these places the code behaves differently from what its design suggests, and the model follows the code:

- `speak` does not use `selectedVoice`. It always uses the first host voice
  whose language contains "th", or leaves the voice unset.
  `SpeechSynthesis.SpeakIgnoresDefaultWithoutThai` exhibits a catalog where
  the default selection and the spoken voice differ.
- The transcript is not built by appending. Each result event replaces it.
  `SpeechRecognition.ResultTranscriptExtends` shows that the two agree when
  the host re-delivers earlier results unchanged.
- `startListening` does not check `isSupported`. Started on an unsupported
  host, it clears the "not supported" error and sets `isListening`.
- POST content and the stored value are any JSON value, not only strings.
  Falsiness follows JavaScript: `undefined`, `null`, `false`, `0` and `""`.
  A POST whose body is `undefined` or `null` makes the destructuring throw,
  and the handler answers 500.
- An axios error response with status 0 is answered with 500, because
  `status || 500` treats 0 as missing.

Host events, host exceptions and downstream answers are inputs to the model:
event methods, `...Throws` flags, `Downstream`, `FetchOutcome`. The model
holds no clock and makes no network call.

## Model

| member | source | states |
|---|---|---|
| `Lists.FindFirst` | src/hooks/useSpeechSynthesis.ts:40 | the index returned holds a match and nothing before it matches; no index exactly when nothing matches |
| `Lists.FindFirstAppend` | src/hooks/useSpeechSynthesis.ts:89 | the first match in a concatenation is in the left part if the left part has one, otherwise it is shifted from the right part |
| `Text.Includes` | src/hooks/useSpeechSynthesis.ts:29 | `includes` holds exactly when the needle occurs at some index of the string |
| `Text.TrimStart` | src/hooks/useSpeechSynthesis.ts:78 | the result is a suffix, what was dropped is all whitespace, and the result does not start with whitespace |
| `Text.TrimEnd` | src/hooks/useSpeechSynthesis.ts:78 | the result is a prefix, what was dropped is all whitespace, and the result does not end with whitespace |
| `Text.Trim` | src/hooks/useSpeechSynthesis.ts:78 | `trim()` is empty exactly when every character is whitespace; otherwise it starts and ends with a non-whitespace character and is no longer than the input |
| `Http.Falsy` | src/pages/api/receive-result.ts:10-24 | the `!content` and `!messageOutput` guards rejects exactly `undefined`, `null`, `false`, `0` and `""` |
| `Http.Property` | src/pages/api/receive-result.ts:8 | destructuring throws exactly on an undefined or null body; a found value is that object's field |
| `Http.ServerResponse.SetHeader` | src/pages/api/webhook-proxy.ts:15-18 | sets one header and changes nothing else |
| `Http.ServerResponse.Status` | src/pages/api/receive-result.ts:11 | sets the status code and changes nothing else |
| `Http.ServerResponse.SendJson` | src/pages/api/receive-result.ts:15 | sends the body, finishes the response, keeps status and headers |
| `Http.ServerResponse.End` | src/pages/api/receive-result.ts:23 | finishes without a body, keeps status and headers |
| `ReceiveResult.Stored` | src/pages/api/receive-result.ts:6-15 | only a POST whose body has truthy `content` stores anything, and it stores that content |
| `ReceiveResult.Answer` | src/pages/api/receive-result.ts:5-33 | 201 exactly when content is stored, with body {message:"Success", content}; 500 when destructuring throws and 400 on falsy content, both leaving the slot alone; GET gives 204 with no body on an empty slot, else 200 {result}; any other method gives 405; only a stored POST changes the slot; the slot never holds a falsy value |
| `ReceiveResult.RunAppend` | src/pages/api/receive-result.ts:3 | handling `a + b` from a slot is handling `a`, then `b` |
| `ReceiveResult.RunIsLastWrite` | src/pages/api/receive-result.ts:14 | after any request sequence the slot holds the last stored content, or its initial value if nothing was stored (last write wins) |
| `ReceiveResult.PostThenGet` | src/pages/api/receive-result.ts:14-26 | POST x, then GET, answers 200 {result: x} from any slot |
| `ReceiveResult.PostPostThenGet` | src/pages/api/receive-result.ts:14-26 | POST x, POST y, then GET, answers y |
| `ReceiveResult.GetIsStable` | src/pages/api/receive-result.ts:20-26 | GET does not change the slot, so repeated GETs answer the same |
| `ReceiveResult.ResultStore.constructor` | src/pages/api/receive-result.ts:3 | the slot starts empty |
| `ReceiveResult.ResultStore.Handle` | src/pages/api/receive-result.ts:5-33 | the new slot and the finished reply are those of `Answer`; no header is set |
| `WebhookProxy.Forwarding` | src/pages/api/webhook-proxy.ts:20-30 | the downstream is contacted exactly on POST, with the request body unchanged |
| `WebhookProxy.ErrorStatus` | src/pages/api/webhook-proxy.ts:42 | an error response's status is used unless it is missing or 0, which give 500 |
| `WebhookProxy.ProxyReply` | src/pages/api/webhook-proxy.ts:20-45 | OPTIONS gives 200 with no body; methods other than POST give 405 {message:"Method not allowed"}; a downstream success is relayed verbatim; an axios error relays its status (or 500) and data; any other error gives 500 {message:"Internal server error"} |
| `WebhookProxy.ReplyIgnoresDownstreamUnlessForwarded` | src/pages/api/webhook-proxy.ts:21-27 | when the downstream is not contacted, the reply does not depend on it |
| `WebhookProxy.RelayIsVerbatim` | src/pages/api/webhook-proxy.ts:38-42 | a downstream reply with non-zero status reaches the client unchanged, whether axios resolved or rejected it |
| `WebhookProxy.PreflightAlwaysOk` | src/pages/api/webhook-proxy.ts:21-23 | OPTIONS is answered 200 whatever the downstream would do |
| `WebhookProxy.SetCorsHeaders` | src/pages/api/webhook-proxy.ts:15-18 | the four header writes add exactly the four CORS headers |
| `WebhookProxy.Handle` | src/pages/api/webhook-proxy.ts:13-46 | every response, including 405 and error replies, carries the four CORS headers; the reply is `ProxyReply`; the downstream receives what `Forwarding` says and nothing otherwise |
| `SpeechRecognition.Concat` | src/hooks/useSpeechRecognition.ts:66 | `join("")` of no parts is empty and of one part is that part |
| `SpeechRecognition.ConcatAppend` | src/hooks/useSpeechRecognition.ts:66 | `join("")` of a concatenation is the concatenation of the joins |
| `SpeechRecognition.ResultTranscript` | src/hooks/useSpeechRecognition.ts:63-69 | a transcript exists exactly when every result has an alternative; otherwise reading `result[0]` throws |
| `SpeechRecognition.ResultTranscriptIsJoin` | src/hooks/useSpeechRecognition.ts:64-66 | the handler's transcript is the in-order join of every result's alternative 0 |
| `SpeechRecognition.ResultTranscriptExtends` | src/hooks/useSpeechRecognition.ts:63-67 | when earlier results are re-delivered followed by new ones, rebuilding equals the old transcript plus the new part |
| `SpeechRecognition.Recognizer.constructor` | src/hooks/useSpeechRecognition.ts:44-98 | with a host capability, a session configured continuous, interim, "th-TH", one alternative; without one, unsupported with error "Speech recognition not supported in this browser"; not listening, empty transcript |
| `SpeechRecognition.Recognizer.StartListening` | src/hooks/useSpeechRecognition.ts:155-161 | no change while listening; otherwise transcript "", error cleared, listening, nothing else changed |
| `SpeechRecognition.Recognizer.StopListening` | src/hooks/useSpeechRecognition.ts:163-167 | no change while not listening; otherwise only `isListening` becomes false, transcript kept |
| `SpeechRecognition.Recognizer.OnResult` | src/hooks/useSpeechRecognition.ts:63-69 | the transcript is replaced by `ResultTranscript` and the error cleared; no change when that throws |
| `SpeechRecognition.Recognizer.OnEnd` | src/hooks/useSpeechRecognition.ts:115-131 | restarts the host session only while listening; a throwing restart sets "Error restarting recognition" and stops listening; not listening means no change at all |
| `SpeechRecognition.Recognizer.OnError` | src/hooks/useSpeechRecognition.ts:84-92 | error becomes "Recognition error: " + code; listening continues exactly when it was on and the code is "no-speech" |
| `SpeechRecognition.Recognizer.SyncListening` | src/hooks/useSpeechRecognition.ts:134-153 | runs only when `isListening` changed; with a session it calls host start when listening (throw: "Failed to start speech recognition", listening off) and host stop otherwise (throw: only "Failed to stop speech recognition") |
| `SpeechRecognition.Recognizer.Dispose` | src/hooks/useSpeechRecognition.ts:101-110 | cleanup stops a held session, ignores a throw, changes no state |
| `SpeechRecognition.StopThenLateEnd` | src/hooks/useSpeechRecognition.ts:119-128 | after stop, a late end event makes no host call and leaves transcript and error alone |
| `SpeechRecognition.FailedStart` | src/hooks/useSpeechRecognition.ts:134-153 | a start whose host call throws ends not listening, with host calls start then stop, and the stop error overriding the start error if stop throws |
| `SpeechSynthesis.FilterVoices` | src/hooks/useSpeechSynthesis.ts:28-34 | every kept voice's lang contains "th" or "en"; no more voices than the host's |
| `SpeechSynthesis.FilterVoicesAppend` | src/hooks/useSpeechSynthesis.ts:28-34 | filtering distributes over concatenation, so host order is kept |
| `SpeechSynthesis.FilterVoicesMembers` | src/hooks/useSpeechSynthesis.ts:28-34 | a voice is in the catalog exactly when it copies a host voice whose lang contains "th" or "en" |
| `SpeechSynthesis.FirstThai` | src/hooks/useSpeechSynthesis.ts:40 | the voice found is in the catalog and Thai; none exactly when no voice is Thai |
| `SpeechSynthesis.DefaultVoice` | src/hooks/useSpeechSynthesis.ts:40-47 | the first Thai voice if any, else the first voice, else the selection is unchanged |
| `SpeechSynthesis.UtteranceVoice` | src/hooks/useSpeechSynthesis.ts:88-92 | the first unfiltered host voice whose lang contains "th"; none exactly when there is none |
| `SpeechSynthesis.FirstThaiSurvivesFilter` | src/hooks/useSpeechSynthesis.ts:28-40 | the first Thai voice of the catalog is the copy of the host's first Thai voice, and exists exactly when that does |
| `SpeechSynthesis.SpeakVoiceIsDefaultWhenThai` | src/hooks/useSpeechSynthesis.ts:88-92 | with a Thai host voice, the voice `speak` uses is the default the catalog load selects |
| `SpeechSynthesis.SpeakIgnoresDefaultWithoutThai` | src/hooks/useSpeechSynthesis.ts:88-92 | with only an English voice, the default is that voice but `speak` leaves the voice unset |
| `SpeechSynthesis.Synthesizer.constructor` | src/hooks/useSpeechSynthesis.ts:10-50 | idle, rate and pitch 1, the filtered catalog and its default voice loaded once |
| `SpeechSynthesis.Synthesizer.LoadVoices` | src/hooks/useSpeechSynthesis.ts:23-48 | the catalog becomes the filtered host list (empty without a host object) and the selection becomes `DefaultVoice`; playback state untouched |
| `SpeechSynthesis.Synthesizer.SelectVoice` | src/hooks/useSpeechSynthesis.ts:11 | sets the selected voice |
| `SpeechSynthesis.Synthesizer.SetRate` | src/hooks/useSpeechSynthesis.ts:12 | sets the rate, unclamped |
| `SpeechSynthesis.Synthesizer.SetPitch` | src/hooks/useSpeechSynthesis.ts:13 | sets the pitch, unclamped |
| `SpeechSynthesis.Synthesizer.Stop` | src/hooks/useSpeechSynthesis.ts:138-144 | with a host object, cancel is called and both flags become false |
| `SpeechSynthesis.Synthesizer.Speak` | src/hooks/useSpeechSynthesis.ts:76-122 | blank text or no host object changes nothing; otherwise cancel, then an utterance with `UtteranceVoice`, the current rate and pitch, and volume 1 is handed to the host (logged even when it throws); the controller ends idle, since only onstart marks speaking |
| `SpeechSynthesis.Synthesizer.Pause` | src/hooks/useSpeechSynthesis.ts:124-129 | from speaking (with a host object) goes to paused; otherwise no change |
| `SpeechSynthesis.Synthesizer.Resume` | src/hooks/useSpeechSynthesis.ts:131-136 | from paused (with a host object) goes back to speaking; otherwise no change |
| `SpeechSynthesis.Synthesizer.OnStart` | src/hooks/useSpeechSynthesis.ts:98-101 | speaking, paused flag untouched, invariant kept |
| `SpeechSynthesis.Synthesizer.OnEnd` | src/hooks/useSpeechSynthesis.ts:103-107 | both flags false |
| `SpeechSynthesis.Synthesizer.OnError` | src/hooks/useSpeechSynthesis.ts:109-113 | both flags false |
| `TextToSpeech.FetchData` | src/components/TextToSpeech.tsx:48-61 | success exactly when still mounted and data is non-null; only success sets the result; a thrown fetch leaves it unchanged |
| `TextToSpeech.Poll` | src/components/TextToSpeech.tsx:45-77 | mounted exactly until an unmount; the result is the last data delivered while mounted; the interval stays scheduled until the first tick that delivers data or the unmount, regardless of errors, nulls and the immediate first call |
| `TextToSpeech.LateResultsDiscarded` | src/components/TextToSpeech.tsx:73-76 | fetches settling after the unmount never change the result |
| `TextToSpeech.AutoSpeakDecision` | src/components/TextToSpeech.tsx:79-92 | the text is set exactly for a non-empty result; speaking happens exactly then, and only if not speaking and the catalog is non-empty |
| `TextToSpeech.AutoSpeakEffect` | src/components/TextToSpeech.tsx:79-92 | sets the text as decided; when it speaks a non-blank result with a host object, the host gets a cancel and then the utterance of that result and the controller ends idle; when it does not speak, or the result is blank, or there is no host object, the controller is unchanged; the catalog, selection, rate, pitch and host flag are always kept |

## Left out

- Rendering: JSX, layout, animation, the record and send buttons, and the settings sliders. The 0.5 to 2 clamp on rate and pitch belongs to the sliders, so the controller's setters accept any value.
- src/api/messageApi.ts (`sendMessage` through a CORS relay) and the `getMessage` call. `getMessage` is not defined in the repository, so each poll is an abstract `FetchOutcome`. Its data (`any | null` in src/components/TextToSpeech.tsx:26) is narrowed to an optional string.
- Headers the framework adds, such as the `Content-Type` that `res.json` sets: `Http.ServerResponse.SendJson` and `WebhookProxy.Handle` describe only the headers the handlers set themselves.
- src/pages/api/speech.ts, a stub route that answers 200 or 405.
- The host Web Speech APIs are not modelled internally. Only the calls made on them are logged, and whether a call throws is an input.
- React internals: state batching, effect scheduling and stale closures. This includes the first `onend` handler (src/hooks/useSpeechRecognition.ts:71-82), which the rebinding effect replaces. It also includes the effect at src/hooks/useSpeechSynthesis.ts:59-74, which re-installs an `onend` with the same effect as the one `speak` sets.
- SpeechRecognition.Recognizer.OnEnd: reads the committed `isListening`, not the value captured by the handler's closure. An end event arriving between a state change and the effect that rebinds the handler is not modelled.
- TextToSpeech.AutoSpeakEffect: calls `speak` at once instead of after the 100 ms `setTimeout`; the flags it reads are those of the render in which the effect ran, as the timeout closure's are.
- SpeechSynthesis.Synthesizer.Speak: `speakThrows` covers only the host `speak` call throwing. A throw from constructing the utterance (which would leave `utteranceRef` unset) is not modelled.
- TextToSpeech.Poll: does not restrict the event sequence to what the timers can produce. It allows more than one immediate response, and tick responses after the interval is cleared, which can only come from fetches already in flight. Real timers (3000 ms, 100 ms) are not modelled.
- The 500 branch of GET in src/pages/api/receive-result.ts:27-30: responding with a stored JSON value cannot throw in the model. The POST 500 branch is modelled for a body that cannot be destructured.
- The `typeof window` guards: the model is the browser side, where `window` exists.
- Floating point: rate and pitch are opaque `real` values that are copied. NaN is not a JSON value.
- Console logging.
- src/components/SpeechRecognition.tsx:76 compares the error with "no-speech", but the hook stores "Recognition error: no-speech", so that warning is never suppressed. This page-level code is not part of this model.

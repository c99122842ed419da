# Voice-interpreter session orchestration in Dafny

This project models the session-orchestration core of a browser voice assistant for surgeons. An OpenAI Realtime session runs a set of agents:
- a chief assistant;
- an operative-report scribe;
- a surgical editor.

It also runs two extra "interpretation legs", doctor to patient and patient to doctor. Each leg is a session with its own status, connection handles and recorded audio. The detected spoken language decides which leg's audio is played.

Everything is modelled as immutable datatypes and total step functions. The following are taken as parameters:
- network and media outcomes: the key fetch, the offer/answer exchange, microphone access, and an exception escaping a connect;
- `JSON.parse`: a function `string -> Option<JsVal>`, where `None` means the text does not parse.

| file | modules | what it holds |
|---|---|---|
| `wrappers.dfy` | `Wrappers`, `Statuses` | `Option`, `Result` (a value or a thrown exception), the three session statuses |
| `js_values.dfy` | `JsValues`, `TextCase` | parsed JavaScript values, truthiness, property access, template-literal string conversion, `join`, ASCII `toLowerCase` |
| `audio_buffer.dfy` | `AudioBuffers` | the per-leg chunk buffer and the recorder's positive-size guard |
| `language_context.dfy` | `Languages` | the seven-member `Language` enumeration and the detected-language context |
| `global_flags.dfy` | `GlobalFlags` | the global flag record, its toggle, setters and microphone capture |
| `doctor_assistant.dfy` | `AgentConfigs` | the three agents, their transfer graph, and the two tool handlers |
| `server_events.dfy` | `ServerEvents` | the function-call dispatcher and the server-event reducer |
| `parallel_sessions.dfy` | `ParallelSessions` | the two legs and the steps both lifecycle variants share: channel close, teardown, audio arrival |
| `app_connections.dfy` | `AppConnections` | the page component's connect, start and lifecycle effects |
| `hook_connections.dfy` | `HookConnections`, `ConnectionVariants`, `HandlerLanguageWiring` | the audio-connection hook's variant, where the two variants differ, and how the hook's caller reads the party languages |
| `audio_routing.dfy` | `AppRouting`, `HookRouting`, `RoutingVariants`, `PageLanguageWiring` | playback routing in the page component and in the routing hook, their comparison, and how the page reads the party languages |

The page component and the two hooks both implement the leg lifecycle and the routing, and they disagree in several places. Both variants are modelled and their differences are stated as lemmas:
- the page guards against reconnecting a leg that holds a peer connection; the hook does not;
- a missing key leaves the page's leg CONNECTING, while the hook never enters CONNECTING;
- the page discards audio in a language matching neither party and clears both buffers at once, while the hook always plays one of the buffers and clears them only when playback ends.

Dispatch in `handleFunctionCall` is modelled with its real ordering. A call found in the active agent's tool table is awaited. So within one `response.done`, transfer and fallback calls take effect first, in output order. The tool-table calls' replies follow, also in output order. The active agent is read once per batch. "In output order" therefore holds within each of the two groups, not across them.

## Model

| member | source | states |
|---|---|---|
| AudioBuffers.AddChunk | src/app/App.tsx:80-104 | a chunk goes after every chunk already held, and the materialised bytes grow by exactly that chunk |
| AudioBuffers.Clear | src/app/hooks/useAudioConnection.ts:34-58 | clearing drops every chunk, so the buffer materialises to no bytes |
| AudioBuffers.Materialize | src/app/App.tsx:80-104 | the blob holds exactly the buffer's chunks concatenated in arrival order, carries the requested MIME type, is empty for an empty buffer, and is at least as long as any chunk it holds |
| AudioBuffers.FlattenAppend | src/app/App.tsx:80-104 | the in-order concatenation of chunks followed by one more chunk is the old concatenation followed by that chunk |
| AudioBuffers.FlattenBounds | src/app/hooks/useAudioConnection.ts:34-58 | no chunk is longer than the concatenation of a sequence containing it |
| AudioBuffers.RecordChunk | src/app/lib/connectionForOutputBuffer.ts:22-27 | only chunks of positive size are appended; an empty chunk leaves the buffer as it was |
| AudioBuffers.RecordAllContents | src/app/App.tsx:124-130 | recording a stream yields the previous bytes followed by the stream's bytes in order, and never stores an empty chunk |
| Languages.FromValue | src/app/contexts/LanguageContext.tsx:5-13 | a string names a member exactly when it is that member's value |
| Languages.AllLanguagesComplete | src/app/contexts/LanguageContext.tsx:5-13 | the enumeration has exactly seven members with pairwise distinct values, and each value maps back to its member |
| Languages.ValuesAreLowerCase | src/app/contexts/LanguageContext.tsx:5-13 | every member's value is lower-case, so folding it changes nothing |
| Languages.FoldedMatch | src/app/App.tsx:341 | the routing's case-folded comparison with a member equals comparing the folded spoken text with the member's value |
| Languages.InitialLanguageContext | src/app/contexts/LanguageContext.tsx:23 | the detected language starts as UNKNOWN |
| Languages.SetDetectedLanguage | src/app/contexts/LanguageContext.tsx:22-26 | the setter installs the given language in the context, which holds nothing else |
| GlobalFlags.InitialFlags | src/app/contexts/GlobalFlagContext.tsx:31-35 | the link flag starts on; message display, microphone stream and parallel flag start off; the spoken language starts as "unknown" |
| GlobalFlags.ToggleGlobalFlag | src/app/contexts/GlobalFlagContext.tsx:37-40 | the toggle negates the link flag and leaves every other field unchanged |
| GlobalFlags.ToggleTwiceRestores | src/app/contexts/GlobalFlagContext.tsx:37-40 | toggling twice restores the original record |
| GlobalFlags.SetDisplayMessages | src/app/contexts/GlobalFlagContext.tsx:54-71 | the message-display setter changes only its own field |
| GlobalFlags.SetParallelConnection | src/app/contexts/GlobalFlagContext.tsx:34 | the parallel-flag setter changes only its own field |
| GlobalFlags.SetSpokenLanguage | src/app/contexts/GlobalFlagContext.tsx:35 | the spoken-language setter changes only its own field |
| GlobalFlags.CaptureMic | src/app/contexts/GlobalFlagContext.tsx:42-52 | a granted capture stores a stream; a refused one leaves the stream as it was; nothing else changes |
| GlobalFlags.CaptureAtMount | src/app/contexts/GlobalFlagContext.tsx:42-52 | right after mounting, a stream is present exactly when the capture was granted |
| AgentConfigs.FindAgent | src/app/hooks/useHandleServerEvent.ts:101-106 | the result is the first agent with that name, and there is none exactly when no agent carries the name |
| AgentConfigs.FindConfigured | src/app/agentConfigs/DoctorAssistant.ts:451-454 | each of the three configured names resolves to its own agent |
| AgentConfigs.DoctorAssistantShape | src/app/agentConfigs/DoctorAssistant.ts:451-454 | there are three agents with distinct names in registration order and every downstream name resolves in the set; the tool tables match the declared tools: none for the chief, only the scribe tool for the operative-report agent, only the update tool for the editor |
| AgentConfigs.DoctorAssistantNames | src/app/agentConfigs/DoctorAssistant.ts:451-454 | the set has exactly three agents, named chiefAssistant, operativeReportAssistant and surgicalEditor in that order, with pairwise distinct names |
| AgentConfigs.DoctorAssistantGraph | src/app/agentConfigs/DoctorAssistant.ts:451-453 | every downstream name of every agent resolves to an agent of the set |
| AgentConfigs.DoctorAssistantTools | src/app/agentConfigs/DoctorAssistant.ts:262-306 | each agent's tool table names exactly its declared tools: none for the chief, the scribe tool for the operative-report agent, the update tool for the editor |
| AgentConfigs.DoctorAssistantCycle | src/app/agentConfigs/DoctorAssistant.ts:451-453 | the transfer graph is the cycle chief, operative report, editor, chief |
| AgentConfigs.Destructure | src/app/agentConfigs/DoctorAssistant.ts:308-316 | absent surgical details and post-op plan become empty objects, so neither is ever `undefined` after destructuring |
| AgentConfigs.ScribeFields | src/app/agentConfigs/DoctorAssistant.ts:312-345 | falsy anesthesia, tourniquet time, discharge timing and rehab protocol read "N/A"; falsy other-details entries read "None"; truthy ones read as their string conversion; list entries are joined only when they are arrays |
| AgentConfigs.SurgicalScribeTool | src/app/agentConfigs/DoctorAssistant.ts:305-356 | it throws exactly on `null`/`undefined` arguments; it fails with the fixed message exactly when the surgical details or the post-op plan is `null`; otherwise it returns exactly one assistant message carrying the rendered report |
| AgentConfigs.ScribeWithoutSurgicalDetails | src/app/agentConfigs/DoctorAssistant.ts:301-316 | the required fields are not enforced: a call without surgical details or post-op plan still yields a report, not the failure record |
| AgentConfigs.DetailsDefaultWhenAbsent | src/app/agentConfigs/DoctorAssistant.ts:312-345 | in such a report anesthesia, duration, discharge and rehab read "N/A", both other-details entries read "None", and implants are empty |
| AgentConfigs.TourniquetZeroRendersNA | src/app/agentConfigs/DoctorAssistant.ts:338 | a tourniquet time of 0 renders as "N/A" |
| AgentConfigs.UpdateSurgicalReportTool | src/app/agentConfigs/DoctorAssistant.ts:431-448 | it throws exactly on `null`/`undefined` arguments; otherwise it returns one assistant message whose content is the `updateText` argument as given |
| ServerEvents.InitialSession | src/app/App.tsx:459-463 | with a non-empty set, the first agent is active, and the note, mail flag, transcript and outbox start empty |
| ServerEvents.TransferCall | src/app/hooks/useHandleServerEvent.ts:100-122 | the active agent becomes the destination exactly when an agent of that name is in the whole set, and the reply reports that outcome; no response is requested; nothing else changes; `null` arguments throw and change nothing |
| ServerEvents.FallbackCall | src/app/hooks/useHandleServerEvent.ts:123-139 | an unrecognised call is acknowledged and followed by a response request, and nothing else changes |
| ServerEvents.ToolContinuation | src/app/hooks/useHandleServerEvent.ts:63-99 | a throwing handler changes nothing; otherwise the reply and a response request follow; the scribe stores a truthy first content and the update tool a truthy `updateText` as the patient note; a falsy one leaves the note as it was |
| ServerEvents.SyncPhase | src/app/hooks/useHandleServerEvent.ts:50-151 | the synchronous part of a batch never changes the agent set, note, transcript or mail flag, and sets aside at most one pending tool call per call |
| ServerEvents.ToolPhase | src/app/hooks/useHandleServerEvent.ts:63-99 | the awaited tool replies only extend the outbox and never change the active agent, transcript or mail flag |
| ServerEvents.DispatchBatch | src/app/hooks/useHandleServerEvent.ts:231-248 | dispatching a batch only appends to the outbox and never touches the agent set, transcript or mail flag |
| ServerEvents.SyncPhaseOutboxGrows | src/app/hooks/useHandleServerEvent.ts:100-139 | transfer and fallback replies only append to what was already sent |
| ServerEvents.DispatchedCalls | src/app/hooks/useHandleServerEvent.ts:231-247 | a `function_call` entry with a name and arguments is dispatched, and every dispatched call comes from such an entry |
| ServerEvents.DispatchedCallsConcat | src/app/hooks/useHandleServerEvent.ts:235-246 | dispatch keeps output order: the calls of two consecutive stretches are the first stretch's calls followed by the second's |
| ServerEvents.OnItemCreated | src/app/hooks/useHandleServerEvent.ts:175-208 | a known id changes nothing; an assistant mail trigger only sets the mail flag; any other item with an id and a role is added with its stored text |
| ServerEvents.HandleServerEvent | src/app/hooks/useHandleServerEvent.ts:153-258 | while paused, everything but a status change is dropped; only `response.done` touches the active agent, note or outbox, and then only by appending; the mail flag is raised only by a processed assistant item; a created session with an id marks the session CONNECTED |
| ServerEvents.ItemCreatedIdempotent | src/app/hooks/useHandleServerEvent.ts:183-185 | delivering the same item-created event twice has the effect of delivering it once |
| ServerEvents.EmailTriggerOnlyOnParsedShape | src/app/hooks/useHandleServerEvent.ts:188-199 | assistant text parsing to the trigger sets the mail flag without a transcript message; any other text is stored as an ordinary message |
| ServerEvents.EmailTriggerIgnoresExtraFields | src/app/hooks/useHandleServerEvent.ts:190-193 | the trigger compares only `type` and `action`, so extra fields still fire it; `null` and unparsable text never do |
| ServerEvents.TranscriptPlaceholders | src/app/hooks/useHandleServerEvent.ts:201-216 | an empty user item is shown as transcribing, and a blank or newline-only completed transcription as inaudible |
| ServerEvents.ToolTableTakesPrecedence | src/app/hooks/useHandleServerEvent.ts:63-99 | a name in the active agent's tool table is handled by that table, even when it is the transfer tool's name |
| ServerEvents.TransferIffInAgentSet | src/app/hooks/useHandleServerEvent.ts:100-122 | a transfer moves to the destination exactly when it is in the set, replies with that outcome, sends no response request and leaves the note alone |
| ServerEvents.UnknownCallFallsBack | src/app/hooks/useHandleServerEvent.ts:123-139 | an unclaimed name is acknowledged with a response request, and agent and note stay unchanged |
| ServerEvents.TransferBeyondDownstreamAccepted | src/app/hooks/useHandleServerEvent.ts:101-110 | from the chief assistant, a transfer to the editor, which is not downstream of it, is accepted |
| ServerEvents.ScribeCallStoresReport | src/app/hooks/useHandleServerEvent.ts:63-75 | a scribe call stores the rendered report as the patient note and replies with it and a response request |
| ServerEvents.ScribeContinuation | src/app/hooks/useHandleServerEvent.ts:63-75 | once awaited, the scribe result's report becomes the note and is replied with a response request |
| ServerEvents.ScribeToolOnPlainArgs | src/app/agentConfigs/DoctorAssistant.ts:305-347 | arguments without surgical details or post-op plan yield the single report message |
| ServerEvents.ScribeResultStored | src/app/hooks/useHandleServerEvent.ts:67-75 | any scribe result whose one message has truthy content stores that content as the note and replies with a response request |
| ServerEvents.UpdateCallStoresText | src/app/hooks/useHandleServerEvent.ts:76-84 | an update call stores its non-empty text verbatim as the patient note |
| ServerEvents.UpdateContinuation | src/app/hooks/useHandleServerEvent.ts:76-99 | once awaited, the update's text becomes the note and is replied with a response request |
| ServerEvents.ToolRepliesFollowSynchronousReplies | src/app/hooks/useHandleServerEvent.ts:63-139 | in any batch of a call in the active agent's tool table whose handler returns, followed by an unclaimed call, the outbox gains the fallback's acknowledgement and response request first, then the tool's result and its response request |
| ParallelSessions.InitialParallel | src/app/App.tsx:80-104 | both legs start DISCONNECTED, without handles and with empty buffers |
| ParallelSessions.WithLeg | src/app/App.tsx:176-225 | replacing one leg leaves the other leg and the primary status alone |
| ParallelSessions.Dropped | src/app/App.tsx:213-218 | a dropped leg is DISCONNECTED with no handles and keeps its buffer |
| ParallelSessions.ChannelClosed | src/app/hooks/useAudioConnection.ts:108-113 | closing a leg's channel drops only that leg's handles and marks only it DISCONNECTED |
| ParallelSessions.Teardown | src/app/App.tsx:383-409 | after cleanup both legs are DISCONNECTED with no handles; buffers and the primary status are untouched |
| ParallelSessions.TeardownIdempotent | src/app/hooks/useAudioConnection.ts:169-191 | cleaning up twice is cleaning up once, and cleaning up a torn-down pair changes nothing |
| ParallelSessions.ReceiveChunk | src/app/App.tsx:124-130 | inbound audio for a leg goes through the positive-size guard into that leg's buffer only |
| ParallelSessions.ClearBoth | src/app/App.tsx:370-375 | both buffers are emptied and nothing else changes |
| ParallelSessions.ReceiveAll | src/app/App.tsx:124-130 | a stream of inbound audio changes only that leg's buffer, as recording the stream would |
| AppConnections.AppConnect | src/app/App.tsx:176-225 | a leg holding a peer connection is left alone; otherwise it ends CONNECTING exactly on a missing key, and CONNECTED exactly on a key, a microphone and a completed exchange; it holds a peer connection exactly when CONNECTED; a missing key also marks the primary session DISCONNECTED |
| AppConnections.AppStart | src/app/App.tsx:227-274 | without a microphone nothing changes; each DISCONNECTED leg is connected, doctor leg first, ending as a connect of that leg would; legs that are not DISCONNECTED are not reconnected; an escaping exception leaves both legs DISCONNECTED without peer connections; buffers are untouched |
| AppConnections.AppStartFires | src/app/App.tsx:304-308 | the two start effects together fire exactly when the parallel flag is set, with or without party languages |
| AppConnections.AppLifecycle | src/app/App.tsx:383-415 | with the flag off the legs are torn down; with it on the legs are started |
| AppConnections.AppConnectPreserves | src/app/App.tsx:176-225 | a connect keeps every leg well formed: CONNECTED exactly when holding a peer connection, never a peer connection without a data channel |
| AppConnections.AppStartPreserves | src/app/App.tsx:227-274 | a start keeps both legs well formed |
| AppConnections.AppClosePreserves | src/app/App.tsx:383-409 | channel close and cleanup keep both legs well formed |
| AppConnections.NoDuplicateConnect | src/app/App.tsx:183 | a CONNECTED leg is never connected again, by a direct connect or a start |
| AppConnections.NullKeyLeavesLegConnecting | src/app/App.tsx:510-524 | a missing key strands the leg in CONNECTING without handles; starts skip it until a cleanup returns it to DISCONNECTED |
| AppConnections.StartFromTornDownConnectsBoth | src/app/App.tsx:227-274 | from a torn-down pair with both exchanges succeeding, both legs end CONNECTED with both handles |
| AppConnections.AppClosedLegReconnects | src/app/App.tsx:275-308 | the language-gated start effect depends on the leg statuses, so after a channel close, with both party languages set, a successful start brings the closed leg back CONNECTED with both handles and leaves a leg that was not DISCONNECTED alone |
| AppConnections.AppClosedLegStaysDown | src/app/App.tsx:304-308 | with a party language missing, the status-triggered re-run starts nothing, so a closed leg stays DISCONNECTED without handles |
| HookConnections.HookConnect | src/app/hooks/useAudioConnection.ts:70-120 | a leg never becomes CONNECTING; it is CONNECTED exactly on a microphone, a key and a completed exchange; any failure only marks it DISCONNECTED and keeps its handles; there is no guard |
| HookConnections.HookStart | src/app/hooks/useAudioConnection.ts:122-167 | without a microphone nothing changes; each DISCONNECTED leg is connected, ending as a connect of that leg would; legs that are not DISCONNECTED are skipped; an escaping exception runs the full cleanup |
| HookConnections.HookLifecycle | src/app/hooks/useAudioConnection.ts:194-206 | with the flag off the legs are torn down; with it on and a party language missing nothing happens; with it on and both party languages set the legs are started |
| HookConnections.HookNeverConnecting | src/app/hooks/useAudioConnection.ts:70-191 | no step of the hook ever puts a leg in CONNECTING |
| HookConnections.HookClosedLegReconnects | src/app/hooks/useAudioConnection.ts:108-198 | after a channel close, with both party languages set, a successful start brings the closed leg back CONNECTED with both handles and leaves a leg that was not DISCONNECTED alone |
| ConnectionVariants.GuardDiffers | src/app/App.tsx:183 | on a CONNECTED leg the page's connect is a no-op, while a failing connect in the hook marks the leg DISCONNECTED although it still holds its handles |
| ConnectionVariants.NullKeyDiffers | src/app/hooks/useAudioConnection.ts:77-85 | a missing key leaves the page's leg CONNECTING but the hook's leg DISCONNECTED, and the hook leaves the primary session alone |
| ConnectionVariants.StartWithoutLanguagesDiffers | src/app/App.tsx:411-415 | with the flag set and no party languages, the page still connects both legs and the hook does nothing |
| HandlerLanguageWiring.HandlerNeverStarts | src/app/components/AudioHandler.tsx:8 | as wired, the hook's caller passes no party languages, so setting the flag never starts a leg |
| HandlerLanguageWiring.HandlerStartsWithPartyLanguages | src/app/hooks/useAudioConnection.ts:194-198 | given both party languages, setting the flag from a torn-down pair connects both legs when the microphone and both exchanges succeed |
| AppRouting.AppRoute | src/app/App.tsx:313-376 | routing aborts without touching either buffer when the spoken language is missing or "unknown", a party language is missing, the flag is off, or there is no audio element; otherwise the doctor match plays the doctor leg, else the patient match plays the patient leg, else nothing plays; both buffers are cleared in every case |
| AppRouting.AppRoutingEffect | src/app/App.tsx:313-381 | the routing runs only in a render that changed the spoken language or a party language, never on a change of the flag alone, and then only on a detected language other than "unknown"; when it runs it routes with the current flag |
| AppRouting.RepeatedLanguageStrandsAudio | src/app/App.tsx:370-381 | a second utterance in the language just routed is not routed; its audio stays in the leg's buffer, and the next party's routing empties that buffer without playing it |
| AppRouting.DoctorSpeakingExample | src/app/App.tsx:341-352 | English doctor, Arabic patient, English spoken: the doctor leg's bytes play and both buffers end empty |
| AppRouting.MismatchDiscards | src/app/App.tsx:365-375 | Hindi spoken between an English doctor and an Urdu patient: nothing plays and both buffers are discarded |
| AppRouting.NoCrossUtteranceBleed | src/app/App.tsx:370-375 | after a routing that went through, the next doctor routing plays exactly the audio recorded since |
| HookRouting.HookRoute | src/app/hooks/useAudioRouting.ts:25-70 | missing preconditions, a missing selected buffer reference or a missing audio element abort without playing; otherwise the selected leg's audio plays and the end handler is set; no buffer changes at routing time |
| HookRouting.HookPlaybackEnded | src/app/hooks/useAudioRouting.ts:62-69 | when playback ends both buffers are cleared; without an end handler nothing is cleared; a missing reference stops the clearing at that buffer |
| HookRouting.HookRoutingEffect | src/app/hooks/useAudioRouting.ts:25-77 | the effect never changes a buffer; a render with unchanged inputs, an empty spoken language or the flag off routes nothing; a render that changed the spoken or a party language routes with the current flag; a render that changed only the flag, to on, routes with the flag value held since the callback was last recreated |
| HookRouting.FlagSetAfterDetectionPlaysNothing | src/app/hooks/useAudioRouting.ts:36-77 | a language detected before the flag is set is never played: the render that sets the flag runs the effect, but the callback still holds the unset flag |
| HookRouting.StaleAudioWithoutPlaybackEnd | src/app/hooks/useAudioRouting.ts:54-69 | without a playback end between two routings, the second plays the first utterance's audio again, followed by the new audio |
| RoutingVariants.VariantsDifferOnMismatch | src/app/hooks/useAudioRouting.ts:46-54 | for every spoken language that passes the guards and matches neither party, the page discards both buffers and plays nothing, while the hook plays the patient leg's buffer and keeps both buffers |
| RoutingVariants.VariantsAgreeOnDoctorMatch | src/app/App.tsx:341-352 | on a doctor match both variants play the doctor leg's bytes |
| PageLanguageWiring.PageRoutingNeverRuns | src/app/App.tsx:46 | as wired, the page's routing never plays anything and never clears a buffer |
| PageLanguageWiring.RoutingWithPartyLanguages | src/app/App.tsx:313-376 | with distinct party languages available, speaking the doctor's language plays the doctor leg and speaking the patient's plays the patient leg |

## Left out

- WebRTC, the SDP offer/answer exchange and MediaRecorder plumbing are foreign browser APIs. Their results are the `ConnectOutcome` parameter: a failed, empty or successful key fetch, and a failed or completed exchange.
- Network calls (`fetchEphemeralKey`, the session endpoint) are network I/O. They are represented by the key outcome. The page's fetch also marks the primary session DISCONNECTED on a missing key, and that is modelled.
- `JSON.parse` is a parameter `parse`, so a call whose arguments do not parse is a `None`. The source throws there and abandons that call, and the model drops the call to match.
- `sendClientEvent` is outward I/O and is recorded as an outbox of requested client events. Its gate on the link flag and an open data channel is not modelled.
- The transcript store (`addTranscriptMessage`, `updateTranscriptMessage`, `updateTranscriptItemStatus`) is not part of this model. Its calls are recorded as transcript operations, and an added id counts as known afterwards.
- Breadcrumbs, event logging and console output are diagnostics only.
- `injectTransferTools` is not part of this model. Tool tables are taken as declared, and the transfer tool's argument schema is not asserted.
- Tool names that are properties of `Object.prototype` are not modelled. In the source, an index into `toolLogic` could return an inherited property.
- Numbers are integers. Fractions and exponent notation in template strings are not rendered.
- TextCase.Lower, AppRouting.AppRoute, HookRouting.HookRoute: case folding covers ASCII letters only. Every language value is ASCII, so the comparison with a party's language is exact when the spoken text is ASCII. JavaScript's `toLowerCase` also folds a few non-ASCII characters to ASCII letters (U+212A KELVIN SIGN becomes `k`), so such a spoken text can match a party's language in the code but not in the model.
- Concurrent interleavings at `await` points are not modelled: each connect runs to completion before the next starts. Two starts racing on the same leg, or a channel close arriving mid-connect, are out of scope.
- AppConnections.AppStart, HookConnections.HookStart: `connectAgentSession` catches everything itself, so its callers' catch is effectively unreachable. The model keeps that catch as a `fault` input applied after both legs have been attempted; where between the two connects an exception would strike is not modelled.
- Effect re-runs are modelled for the routing only. `AppRoutingEffect` and `HookRoutingEffect` take the previous render's inputs, and the routing callback keeps the flag value of the render that last recreated it. The other effects are modelled as single steps.
- ServerEvents.HandleServerEvent, ServerEvents.ItemCreatedIdempotent: the page binds the reducer to the data channel once, when it connects (src/app/App.tsx:558-560). That reducer's closure keeps the transcript items and the pause flag of that render (src/app/hooks/useHandleServerEvent.ts:262-272). The model applies the reducer to the current state. So the duplicate-id check and the pause hold as stated only for a reducer that sees the current state; the bound reducer checks ids against the transcript as it was at connect time and uses the pause flag from then.
- AppConnections.AppStart, HookConnections.HookStart: both start callbacks depend on the two leg statuses (src/app/App.tsx:275-281, src/app/hooks/useAudioConnection.ts:160-167), so the language-gated start effects (src/app/App.tsx:304-308, src/app/hooks/useAudioConnection.ts:194-198) run again after every status change. The page's other start effect (src/app/App.tsx:411-415) depends only on the flag and the microphone and does not. The re-run after a close is stated by `AppClosedLegReconnects`, `AppClosedLegStaysDown` and `HookClosedLegReconnects`. A re-run that fires while an earlier connect is still awaiting is the concurrency left out above.
- The primary session's connection (`connectToRealtime`), push-to-talk, session updates and the render, persistence and redirect logic of the page component are outside the orchestration core.
- The language-confidence gate and per-utterance latch are not modelled because the code contains neither.
- Language detection itself (the speech-to-text route) is I/O. The detected language is an input string.
- UI components, API routes and `useSessionManagement.ts` are rendering, I/O or dead code.
- Object-URL lifetimes and `Date.now()` are not modelled.
- Teardown does not empty the buffers: neither cleanup clears them (src/app/App.tsx:383-409, src/app/hooks/useAudioConnection.ts:169-191). Only routing and the end of playback do.
- `PatientDataContext` and `EmailContext` are single-cell stores. They are the `patientNote` and `sendEmail` fields of the session state.

## Findings

| source | as written | input that shows it | evidently intended | confidence | as-written member | corrected member |
|---|---|---|---|---|---|---|
| src/app/App.tsx:46 | the page takes `doctorLanguage` and `patientLanguage` from the language context, whose value holds only `detectedLanguage` and its setter, so both are always `undefined` and `routeAudioBuffer` returns at its second guard | any state: spoken "english", flag set, audio element present; routing returns before playing or clearing | routing receives the two parties' chosen languages and plays the matching leg | high (not executed) | PageLanguageWiring.PageRoutingNeverRuns | PageLanguageWiring.RoutingWithPartyLanguages |
| src/app/components/AudioHandler.tsx:8 | the connection hook's caller takes `doctorLanguage` and `patientLanguage` from the same language context, so the hook always receives `undefined` for both and its start effect never fires | any state, flag set, microphone present and both exchanges succeeding: no leg is connected | the hook receives the two parties' chosen languages and connects both legs when the flag is set | medium (not executed; where the caller is mounted is not part of this model) | HandlerLanguageWiring.HandlerNeverStarts | HandlerLanguageWiring.HandlerStartsWithPartyLanguages |

# AIVoiceChat conversation pipeline in Dafny

A model of the per-connection core of AIVoiceChat. It is a FastAPI websocket service that:

- takes text from a browser client;
- asks a language model for a reply;
- has the reply synthesised to speech;
- sends the audio back on the same websocket.

Three pieces of the service are modelled.

- **`ConversationManager`** (module `Conversation`, app/services/conversation_manager.py) is a `busy` flag plus a FIFO queue of waiting texts.
  - An idle manager processes a new text at once: validate, then LLM, then TTS, then `send_bytes`. It then stays busy until the client sends `ready_for_next`.
  - A busy manager queues the text and tells the client to wait.
  - Any failure is reported to the client, clears `busy`, and goes straight on with the head of the queue. A run of failing queued texts is therefore drained in order.

  The class keeps the source's fields and updates them in place. Every method is proved to have exactly the effect that a pure function of module `Pipeline` describes: `AddMessageRun`, `ReadyRun`, `ProcessRun` and `HandleErrorRun`. These four give the new `busy` flag and queue, the frames sent to the client, the backend calls made, and whether an exception escaped. The properties of the pipeline are then proved about those functions.
- **`WebSocketManager`** (module `WsManager`, app/services/ws_manager.py) is the registry from client id to channel. Connect overwrites an entry, and disconnect does nothing when the id is absent. A send to an unregistered id raises `WebSocketError`. Every frame handed to the transport is recorded in a ghost trace `sent`.
- **The endpoint** (module `Endpoint`, app/main.py) has two parts.
  - `_handle_websocket_message` routes a decoded frame: `"message"` goes to `add_message` (a missing `text` becomes `""`), `"ready_for_next"` goes to `ready_for_next`, and any other `type` is answered with `"Unknown message type: …"`.
  - The `websocket_endpoint` loop works as follows:
    - It registers the client first.
    - It builds a fresh manager.
    - It answers a frame that fails to decode as JSON with `"Invalid message format"`.
    - It removes the client id from the registry however the loop ends.

    `SessionRun` is the function that specifies the loop.

The LLM and TTS backends are parameters: functions from request to either a response or the text of the exception raised. Module `Mocks` instantiates them with the test doubles of tests/conftest.py. Module `PyStr` gives Python's `str.strip`, `in` on strings and UTF-8 `encode`. Module `Schemas` holds the request and response records and the exception classes.

An empty or whitespace-only message sent while idle still sets `busy`. `_process_message` sets it first. `InvalidInputError` is neither an LLM nor a TTS error, so it reaches the generic handler and is reported as `"Unexpected error: Empty message received"`. `_handle_error` then clears `busy` and goes on with the queue. `Pipeline.BlankInput` states this path. `Pipeline.BlankWhileIdle` shows the net effect from an idle manager (which has nothing waiting): one report, no backend call, and the manager ends idle with nothing waiting.

When a failure cannot be reported because the client id is no longer registered, the `send_text` inside `_handle_error` raises. The model treats this as an abort: the `WebSocketError` escapes (`outcome == Fail(...)`), `busy` stays set, and the queue is untouched. `Pipeline.Disconnected` states this case.

## Model

| member | source | states |
|---|---|---|
| PyStr.LStrip | app/services/conversation_manager.py:51 | the result is a suffix, the part removed is all whitespace, and the result is empty or starts with a non-space |
| PyStr.RStrip | app/services/conversation_manager.py:51 | the result is a prefix, the part removed is all whitespace, and the result is empty or ends with a non-space |
| PyStr.Strip | app/services/conversation_manager.py:51 | `text.strip()` is empty exactly when every character is Python whitespace; otherwise both ends of the result are non-space |
| PyStr.Contains | tests/conftest.py:43 | `sub in s` holds exactly when `sub` occurs in `s` at some offset |
| PyStr.IsSpace | app/services/conversation_manager.py:51 | the characters `str.strip()` removes (Python's `isspace`); used by `Strip`, `Blank` and `ValidateInput` |
| PyStr.Utf8 | tests/conftest.py:55 | `encode()`: between one and four bytes per character in total; the encoding goes character by character (`Utf8Append`), each character's bytes decode back to it (`Utf8CharRoundTrip`), and ASCII text maps to its own codes (`Utf8Ascii`) |
| PyStr.Utf8CharRoundTrip | tests/conftest.py:55 | the bytes of one character have UTF-8's shape, a lead byte announcing the length followed by continuation bytes 0b10xxxxxx, use the shortest form for the code point (two bytes exactly below 0x800, three below 0x10000, four above), and decode back to the character's code point |
| PyStr.Utf8Append | tests/conftest.py:55 | the encoding of `a + b` is the encoding of `a` followed by the encoding of `b` |
| PyStr.Utf8Ascii | tests/conftest.py:55 | an ASCII text encodes to one byte per character, each equal to the character's code |
| WsManager.Deliveries | app/services/ws_manager.py:28-29 | the transport receives one delivery per frame sent |
| WsManager.DeliveriesAt | app/services/ws_manager.py:28-29 | the i-th delivery carries the i-th frame, on the registered channel |
| WsManager.DeliveriesAppend | app/services/ws_manager.py:28-29 | the deliveries of two successive batches are the deliveries of the first followed by those of the second |
| WsManager.WebSocketManager.constructor | app/services/ws_manager.py:9-10 | a new registry has no connections and has sent nothing |
| WsManager.WebSocketManager.Connect | app/services/ws_manager.py:12-15 | `id` maps to the given channel, any earlier entry for `id` is replaced, and all other entries are unchanged |
| WsManager.WebSocketManager.Disconnect | app/services/ws_manager.py:17-20 | `id` is removed, an absent `id` leaves the map as it was, and other entries are unchanged |
| WsManager.WebSocketManager.SendText | app/services/ws_manager.py:22-29 | an unregistered id raises `WebSocketError("No active connection for client <id>")` and nothing is sent; a registered id gets exactly `message` on its channel; the map is unchanged |
| WsManager.WebSocketManager.SendBytes | app/services/ws_manager.py:31-38 | the same contract as `send_text`, delivering exactly `data` as a binary frame |
| WsManager.ConnectThenDisconnect | app/services/ws_manager.py:12-26 | after connect then disconnect the id is unregistered, a second disconnect changes nothing, and later sends to it raise without reaching the transport |
| Conversation.ConversationManager.constructor | app/services/conversation_manager.py:7-13 | a new manager is idle with an empty queue and has called no backend |
| Conversation.ConversationManager.Busy | app/services/conversation_manager.py:15-17 | the `busy` property returns the flag; `SimpleConversation` reads it through this function and states its value after each step |
| Conversation.ConversationManager.AddMessage | app/services/conversation_manager.py:19-28 | effect is `AddMessageRun`; while busy the text goes to the back of the queue unvalidated, busy stays set and no backend is called; "idle ⇒ queue empty" is preserved |
| Conversation.ConversationManager.ReadyForNext | app/services/conversation_manager.py:30-35 | effect is `ReadyRun`: go idle and process exactly the head of the queue; with an empty queue nothing else changes; afterwards "idle ⇒ queue empty" holds |
| Conversation.ConversationManager.ProcessMessage | app/services/conversation_manager.py:37-47 | effect is `ProcessRun`: set busy, make the attempt, and pass a caught exception's report (its own text for LLM/TTS errors, "Unexpected error: " + text otherwise) to `_handle_error` |
| Conversation.ConversationManager.ValidateInput | app/services/conversation_manager.py:49-52 | raises `InvalidInputError("Empty message received")` exactly when the text is blank |
| Conversation.ConversationManager.CallLlm | app/services/conversation_manager.py:54-59 | one LLM call with the input text and no correlation id; a failure becomes `LLMServiceError("LLM processing failed: …")` |
| Conversation.ConversationManager.ProcessTts | app/services/conversation_manager.py:61-67 | one TTS call on the given text, then the audio is sent to the client; a TTS failure and a failing `send_bytes` both become `TTSServiceError("TTS conversion failed: …")` |
| Conversation.ConversationManager.HandleError | app/services/conversation_manager.py:69-75 | effect is `HandleErrorRun`: send the report, go idle and take the head of the queue at once; a failing report send raises with busy still set |
| Pipeline.Validate | app/services/conversation_manager.py:49-52 | refuses exactly the blank texts; `ValidateInput` is proved to compute it through `Strip` |
| Pipeline.TryPipeline | app/services/conversation_manager.py:40-43 | the `try` body of `_process_message`: validate, then `_call_llm` (lines 54-59), then `_process_tts` (lines 61-67); its cases are stated by `AttemptSucceeds`, `BlankInput`, `LlmFailure`, `TtsFailure`, `SuccessPath` and `FailureSilent` |
| Pipeline.Report | app/services/conversation_manager.py:44-47 | an LLM or TTS error is reported by its own text, any other by "Unexpected error: " + its text; used by `BlankInput`, `LlmFailure` and `TtsFailure` |
| Pipeline.AddMessageRun | app/services/conversation_manager.py:19-28 | what `add_message` does; `AddMessage` is proved equal to it, and `RestAfterAddMessage`, `MessageWhileBusy` and `BlankWhileIdle` state its properties |
| Pipeline.ReadyRun | app/services/conversation_manager.py:30-35 | what `ready_for_next` does; `ReadyForNext` is proved equal to it, and `RestAfterReady` states its invariant |
| Pipeline.ProcessRun | app/services/conversation_manager.py:37-47 | what `_process_message` does; `ProcessMessage` is proved equal to it, `DrainInOrder` gives its whole effect, and the per-path lemmas below give each case |
| Pipeline.HandleErrorRun | app/services/conversation_manager.py:69-75 | what `_handle_error` does; `HandleError` is proved equal to it, and `FailedItem`, `DrainInOrder` and `Disconnected` state its effect |
| Pipeline.Attempts | app/services/conversation_manager.py:37-43 | the attempts for a list of texts are, element by element, the attempt made for each text |
| Pipeline.FirstSuccess | app/services/conversation_manager.py:72-75 | finds the first attempt that succeeds: every earlier attempt failed |
| Pipeline.FailedItem | app/services/conversation_manager.py:44-47 | a failed attempt is reported, and processing continues with the queue's head |
| Pipeline.DrainStep | app/services/conversation_manager.py:72-75 | one failed item hands over to the rest of the queue, appending its report and calls in front |
| Pipeline.DrainInOrder | app/services/conversation_manager.py:69-75 | processing a text with a queue handles the items in FIFO order, one per failure, up to and including the first success; it ends busy exactly when some item succeeded, with the later items still waiting, and idle with an empty queue otherwise; frames and backend calls are those of the handled items in order |
| Pipeline.BlankInput | app/services/conversation_manager.py:44-52 | a blank text is reported as "Unexpected error: Empty message received", no backend is called, and the manager continues as on `ready_for_next` |
| Pipeline.BlankWhileIdle | app/services/conversation_manager.py:27-28 | a blank text sent to an idle manager leaves it idle with nothing waiting; its only effect is the report |
| Pipeline.LlmFailure | app/services/conversation_manager.py:54-59 | an LLM failure is reported with its prefix, TTS is never called, and the queue advances without `ready_for_next` |
| Pipeline.TtsFailure | app/services/conversation_manager.py:61-67 | TTS receives the LLM's reply text rather than the input; its failure is reported with its prefix and the queue advances |
| Pipeline.SuccessPath | app/services/conversation_manager.py:37-43 | on success exactly one binary frame is sent, carrying TTS(LLM(text).text), and the manager stays busy with the queue untouched |
| Pipeline.AttemptSucceeds | app/services/conversation_manager.py:40-43 | an attempt succeeds exactly when the text is not blank, both backends succeed and the client is registered |
| Pipeline.Disconnected | app/services/conversation_manager.py:69-71 | with the client id gone, processing aborts at the error report's `send_text` (a failed `send_bytes` has already become a TTS error) with busy set, the queue untouched and nothing delivered |
| Pipeline.RestAfterProcess | app/services/conversation_manager.py:37-47 | after processing, idle implies nothing waiting |
| Pipeline.RestAfterReady | app/services/conversation_manager.py:30-35 | after `ready_for_next`, idle implies nothing waiting |
| Pipeline.RestAfterAddMessage | app/services/conversation_manager.py:19-28 | `add_message` keeps "idle ⇒ queue empty" |
| Endpoint.DispatchRun | app/main.py:27-39 | what `_handle_websocket_message` does; `HandleWebsocketMessage` is proved equal to it, and `MissingText`, `MessageWhileBusy`, `UnknownTypeIgnored` and `FramePasses` state its cases |
| Endpoint.FrameRun | app/main.py:57-61 | one pass of the frame loop; `ReceiveFrame` is proved equal to it, and `FrameRest`, `FramePasses` and `MalformedContinues` state its properties |
| Endpoint.SessionRun | app/main.py:54-63 | the frame loop from a fresh manager, up to the first escaping exception; `WebsocketEndpoint` is proved to follow it, and `SessionRest`, `SessionPasses`, `SessionEscapes` and `SessionStops` state its properties |
| Endpoint.HandleWebsocketMessage | app/main.py:27-39 | `"message"` calls `add_message(message.get("text", ""))`, `"ready_for_next"` calls `ready_for_next`, any other type (a missing one rendered as `None`) sends "Unknown message type: <type>" with the manager's state and backends untouched; a non-object value raises AttributeError |
| Endpoint.ReceiveFrame | app/main.py:57-61 | a frame that is not JSON is answered with "Invalid message format"; a JSON frame is dispatched |
| Endpoint.WebsocketEndpoint | app/main.py:43-65 | registers the client, runs a fresh manager over the frames until an exception escapes, delivers exactly `SessionRun`'s frames on the channel, and finally removes the client id |
| Endpoint.SessionSent | app/main.py:55-61 | what a pass sends, after what was sent before, is what the longer session sends |
| Endpoint.SessionStops | app/main.py:54-63 | once an exception escapes, later frames are never read |
| Endpoint.FramePasses | app/main.py:57-61 | with the client registered, only a non-object frame raises |
| Endpoint.FrameRest | app/main.py:55-61 | each frame keeps "idle ⇒ queue empty" |
| Endpoint.SessionRest | app/main.py:45-61 | starting from the fresh manager, "idle ⇒ queue empty" holds after any sequence of frames |
| Endpoint.SessionPasses | app/main.py:54-61 | a session without non-object frames ends without an exception |
| Endpoint.SessionEscapes | app/main.py:54-65 | the first non-object frame ends the session with its AttributeError, leaving the state of the frames before it |
| Endpoint.MalformedContinues | app/main.py:57-61 | an undecodable frame appends exactly the "Invalid message format" reply, leaves the state unchanged, and lets the loop continue |
| Endpoint.UnknownTypeIgnored | app/main.py:35-39 | an unknown type appends exactly the "Unknown message type" reply and leaves the state unchanged |
| Endpoint.MissingText | app/main.py:30-32 | a `"message"` frame without `text` reaches an idle manager as "" and is reported as the empty-message error |
| Endpoint.MessageWhileBusy | app/main.py:30-32 | a `"message"` frame to a busy manager is queued with the please-wait notice and no backend call |
| Mocks.MockLlm | tests/conftest.py:41-45 | fails with "Simulated LLM failure" exactly when the text contains "fail", and otherwise replies "Processed: " + text; stated by `MockFails` and `MockRefuses` |
| Mocks.MockTts | tests/conftest.py:51-55 | fails with "Simulated TTS failure" exactly when the text contains "fail", and otherwise returns the UTF-8 of "audio_" + text; stated by `MockFails` and `MockAudioAscii` |
| Mocks.MockAudioAscii | tests/conftest.py:51-55 | for an ASCII text without "fail", the mock audio is byte for byte "audio_" + text, which tests/test_main.py:57 checks |
| Mocks.PrefixKeepsMarker | tests/conftest.py:43-45 | a prefix without the letter f neither creates nor hides a "fail" |
| Mocks.MockFails | tests/conftest.py:41-55 | under the mocks an item fails exactly when it is blank or contains "fail", it always fails at the LLM, and the mock TTS never fails on the mock LLM's reply |
| Mocks.MockSpeaks | tests/conftest.py:51-55 | a good text is spoken as the UTF-8 of "audio_Processed: " + text, and the manager stays busy |
| Mocks.MockRefuses | tests/conftest.py:41-45 | a text containing "fail" is reported as "LLM processing failed: Simulated LLM failure" and the queue's head follows at once |
| Mocks.FailuresAreDrained | tests/conftest.py:41-55 | two items containing "fail" ahead of a good one give two reports and then its audio, ending busy with nothing waiting |
| Mocks.SimpleConversation | tests/test_main.py:88-112 | with the mocks, "hello" leaves the manager busy and `ready_for_next` makes it idle |

## Left out

- Asynchronous execution is not modelled: `await` suspension, `asyncio.Queue` and several connections running at once. Every call is one sequential step, and the queue is a `seq<string>`. So no other connection can re-register or unregister the same client id while a frame is handled. Within `WebsocketEndpoint` the client therefore stays registered throughout.
- Transport effects are not modelled. `websocket.accept()`, `receive_text()`, closing, and a send that fails on a closed socket all belong to the framework. The frames a client sends are the input sequence of `WebsocketEndpoint`, and the end of that sequence stands for `WebSocketDisconnect`.
- `json.loads` is not modelled. A received frame is either `Malformed` or its decoded value. Of a decoded object, only string-valued `type` and `text` members are represented. A non-string `type` would be rendered by its Python `str()`. A non-string `text`, including `"text": null`, which `message.get("text", "")` passes on as `None`, would fail inside `strip()` and be reported as an unexpected error. Neither is modelled.
- `Conversation.ConversationManager.HandleError` requires `busy`. `_handle_error` is only reached from `_process_message`, after `_busy` has been set.
- The module-level `ws_manager` used by `_handle_websocket_message` and `websocket_endpoint` is the same object the manager was given. The model sends through the manager's registry.
- The backends are fixed functions of the request. The same text always gets the same reply or the same failure. The real LLM samples at temperature 0.7 (app/services/llm_service.py:31), and either service can fail transiently. So, for example, the model says a queued copy of a text whose LLM call failed fails again, where the real program's second call may succeed. No property here depends on a second call repeating the first.
- The real backends in app/services/llm_service.py and app/services/tts_service.py are not modelled. They are OpenAI client wrappers, so they appear only as the `LlmBackend`/`TtsBackend` parameters. app/utils/config.py, the `/` route, static files and the test echo endpoint are not part of this model.
- `Pipeline.ProcessRun`, `Pipeline.HandleErrorRun` and `Pipeline.DrainInOrder` drain the queue by unbounded recursion, one report per failing item and `Pass` for any queue length. In the source each failing queued item nests a new `_process_message` and `_handle_error` frame inside the previous one's `except` handler (app/services/conversation_manager.py:45, 47, 75), so Python's recursion limit (1000 frames by default) bounds the drain: a run of several hundred consecutive failing queued items raises `RecursionError` partway through, which the model does not capture.
- `PyStr.Utf8` covers Unicode scalar values only. Dafny's `char` excludes lone surrogates, which Python's `encode()` would reject.
- `Conversation.ConversationManager.Busy` is the `busy` property. It has no contract of its own because it only returns the field; `Mocks.SimpleConversation` states its value.

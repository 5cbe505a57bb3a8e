/**
 * app/services/conversation_manager.py: the per-connection ConversationManager,
 * a `busy` flag and a FIFO queue updated in place. Each method is proved to
 * have exactly the effect the matching function of module Pipeline describes.
 */
module Conversation {
  import opened Wrappers
  import opened PyStr
  import opened Schemas
  import opened WsManager
  import opened Pipeline

  class ConversationManager {
    const llmService: LlmBackend
    const ttsService: TtsBackend
    const wsManager: WebSocketManager
    const clientId: string
    /** `_busy` */
    var busy: bool
    /** `_queue`: texts waiting, oldest first. */
    var queue: seq<string>
    /** Every backend invocation made so far, in order. */
    ghost var backendCalls: seq<BackendCall>

    /** At rest, an idle manager has nothing waiting. */
    ghost predicate Valid()
      reads this
    {
      !busy ==> queue == []
    }

    /** The surroundings the pipeline functions are evaluated in. */
    ghost function Env(): Pipeline.Env
      reads wsManager
    {
      Pipeline.Env(llmService, ttsService, clientId, clientId in wsManager.activeConnections)
    }

    /** The call had effect `r`: new busy flag and queue, backend calls and sent frames appended. */
    twostate predicate Performed(r: Run)
      reads this, wsManager
    {
      && busy == r.busy && queue == r.queue
      && backendCalls == old(backendCalls) + r.calls
      && wsManager.activeConnections == old(wsManager.activeConnections)
      && wsManager.sent == old(wsManager.sent) + Outbox(old(wsManager.activeConnections), clientId, r.frames)
    }

    constructor (llmService: LlmBackend, ttsService: TtsBackend, wsManager: WebSocketManager, clientId: string)
      ensures this.llmService == llmService && this.ttsService == ttsService
      ensures this.wsManager == wsManager && this.clientId == clientId
      ensures !busy && queue == [] && backendCalls == []
      ensures Valid()
    {
      this.llmService := llmService;
      this.ttsService := ttsService;
      this.wsManager := wsManager;
      this.clientId := clientId;
      busy := false;
      queue := [];
      backendCalls := [];
    }

    /** The `busy` property. */
    function Busy(): bool
      reads this
    {
      busy
    }

    /**
     * `add_message(text)`: while busy, `text` goes to the back of the queue
     * unvalidated, the client is told to wait and no backend is called;
     * otherwise `text` is processed at once.
     */
    method AddMessage(text: string) returns (outcome: Outcome<Error>)
      modifies this, wsManager`sent
      ensures Performed(AddMessageRun(old(Env()), old(busy), old(queue), text))
      ensures outcome == AddMessageRun(old(Env()), old(busy), old(queue), text).outcome
      ensures old(busy) ==> busy && queue == old(queue) + [text] && backendCalls == old(backendCalls)
      ensures old(Valid()) ==> Valid()
    {
      if Valid() {
        RestAfterAddMessage(Env(), busy, queue, text);
      }
      if busy {
        queue := queue + [text];
        outcome := wsManager.SendText(clientId, PleaseWait);
      } else {
        outcome := ProcessMessage(text);
      }
    }

    /**
     * `ready_for_next()`: go idle; if texts are waiting, take exactly the head
     * off the queue and process it. With an empty queue nothing else changes.
     */
    method ReadyForNext() returns (outcome: Outcome<Error>)
      modifies this, wsManager`sent
      ensures Performed(ReadyRun(old(Env()), old(queue)))
      ensures outcome == ReadyRun(old(Env()), old(queue)).outcome
      ensures old(queue) == [] ==> !busy && queue == [] && backendCalls == old(backendCalls) &&
                                   wsManager.sent == old(wsManager.sent)
      ensures Valid()
    {
      RestAfterReady(Env(), queue);
      busy := false;
      if queue != [] {
        var next := queue[0];
        queue := queue[1..];
        outcome := ProcessMessage(next);
      } else {
        outcome := Pass;
      }
    }

    /** `_process_message(text)`: mark busy, run the pipeline, hand any exception to HandleError. */
    method ProcessMessage(text: string) returns (outcome: Outcome<Error>)
      modifies this, wsManager`sent
      decreases |queue|, 1
      ensures Performed(ProcessRun(old(Env()), text, old(queue)))
      ensures outcome == ProcessRun(old(Env()), text, old(queue)).outcome
    {
      ghost var env := Env();
      ghost var attempt := TryPipeline(env, text);
      ghost var sent0 := wsManager.sent;
      ghost var calls0 := backendCalls;
      busy := true;
      var failure: Option<Error> := None;
      var valid := ValidateInput(text);
      if valid.Fail? {
        failure := Some(valid.error);
        assert attempt == Attempt([], [], failure);
      } else {
        var request := LlmRequest(text, None);
        var response := CallLlm(text);
        if response.Failure? {
          failure := Some(response.error);
          assert attempt == Attempt([LlmCall(request)], [], failure);
        } else {
          var speech := TtsRequest(response.value.text);
          var spoken := ProcessTts(response.value.text);
          if spoken.Fail? {
            failure := Some(spoken.error);
            assert attempt == Attempt([LlmCall(request), TtsCall(speech)], [], failure);
          } else {
            assert attempt.failure == None;
            assert attempt.calls == [LlmCall(request), TtsCall(speech)];
          }
        }
      }
      assert backendCalls == calls0 + attempt.calls;
      assert wsManager.sent == sent0 + Outbox(wsManager.activeConnections, clientId, attempt.frames);
      ProcessCases(env, text, old(queue));
      if failure.Some? {
        var report := Report(failure.value);
        ghost var handled := HandleErrorRun(env, report, old(queue));
        ghost var conns := wsManager.activeConnections;
        outcome := HandleError(report);
        AppendAssoc(calls0, attempt.calls, handled.calls);
        OutboxAppend(conns, clientId, attempt.frames, handled.frames);
        AppendAssoc(sent0, Outbox(conns, clientId, attempt.frames), Outbox(conns, clientId, handled.frames));
      } else {
        outcome := Pass;
      }
    }

    /** `_validate_input(text)`: raises InvalidInputError exactly when `text.strip()` is empty. */
    method ValidateInput(text: string) returns (r: Outcome<Error>)
      ensures r.Fail? <==> Blank(text)
      ensures r.Fail? ==> r.error == InvalidInputError(EmptyMessage)
    {
      if Strip(text) == [] {
        r := Fail(InvalidInputError(EmptyMessage));
      } else {
        r := Pass;
      }
    }

    /** `_call_llm(text)`: one LLM call; its exception is rewrapped with the "LLM processing failed" prefix. */
    method CallLlm(text: string) returns (r: Result<LlmResponse, Error>)
      modifies this`backendCalls
      ensures backendCalls == old(backendCalls) + [LlmCall(LlmRequest(text, None))]
      ensures r == match llmService(LlmRequest(text, None))
                   case Success(response) => Success(response)
                   case Failure(m) => Failure(LlmServiceError(LlmFailed + m))
    {
      var request := LlmRequest(text, None);
      backendCalls := backendCalls + [LlmCall(request)];
      var reply := llmService(request);
      match reply
      case Success(response) => r := Success(response);
      case Failure(m) => r := Failure(LlmServiceError(LlmFailed + m));
    }

    /**
     * `_process_tts(text)`: one TTS call on `text`, then the audio is sent;
     * a failure of either is raised as TTSServiceError with the "TTS conversion failed" prefix.
     */
    method ProcessTts(text: string) returns (r: Outcome<Error>)
      modifies this`backendCalls, wsManager`sent
      ensures backendCalls == old(backendCalls) + [TtsCall(TtsRequest(text))]
      ensures match ttsService(TtsRequest(text))
              case Failure(m) => r == Fail(TtsServiceError(TtsFailed + m)) && wsManager.sent == old(wsManager.sent)
              case Success(audio) =>
                if clientId in wsManager.activeConnections then
                  r == Pass && wsManager.sent == old(wsManager.sent) +
                                 [Delivery(wsManager.activeConnections[clientId], BinaryFrame(audio.audio))]
                else
                  r == Fail(TtsServiceError(TtsFailed + NoConnection(clientId).message)) &&
                  wsManager.sent == old(wsManager.sent)
    {
      var request := TtsRequest(text);
      backendCalls := backendCalls + [TtsCall(request)];
      var reply := ttsService(request);
      match reply
      case Failure(m) =>
        r := Fail(TtsServiceError(TtsFailed + m));
      case Success(audio) =>
        var sent := wsManager.SendBytes(clientId, audio.audio);
        if sent.Fail? {
          r := Fail(TtsServiceError(TtsFailed + sent.error.message));
        } else {
          r := Pass;
        }
    }

    /**
     * `_handle_error(message)`: send the report, go idle and start the head of
     * the queue, if any, without waiting for `ready_for_next`. A failing report
     * send raises before busy is cleared.
     */
    method HandleError(message: string) returns (outcome: Outcome<Error>)
      requires busy
      modifies this, wsManager`sent
      decreases |queue|, 0
      ensures Performed(HandleErrorRun(old(Env()), message, old(queue)))
      ensures outcome == HandleErrorRun(old(Env()), message, old(queue)).outcome
    {
      ghost var env := Env();
      var sent := wsManager.SendText(clientId, message);
      if sent.Fail? {
        return sent;
      }
      busy := false;
      if queue != [] {
        var next := queue[0];
        queue := queue[1..];
        outcome := ProcessMessage(next);
        OutboxAppend(wsManager.activeConnections, clientId, [TextFrame(message)], ReadyRun(env, old(queue)).frames);
      } else {
        outcome := Pass;
      }
    }
  }
}

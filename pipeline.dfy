/**
 * The behaviour of one ConversationManager (app/services/conversation_manager.py)
 * as functions of its state: the `busy` flag, the FIFO queue of waiting texts,
 * and the surroundings it reads (the two backends and whether its client id is
 * still registered). The class in module Conversation is proved to follow them.
 */
module Pipeline {
  import opened Wrappers
  import opened PyStr
  import opened Schemas
  import opened WsManager

  /** The text-generation backend: a reply, or the text of the exception it raised. */
  type LlmBackend = LlmRequest -> Result<LlmResponse, string>

  /** The speech-synthesis backend, in the same terms. */
  type TtsBackend = TtsRequest -> Result<AudioResponse, string>

  /** One invocation of a backend. */
  datatype BackendCall = LlmCall(llmRequest: LlmRequest) | TtsCall(ttsRequest: TtsRequest)

  /** What a manager reads besides its own state; `connected` says whether its id is registered. */
  datatype Env = Env(llm: LlmBackend, tts: TtsBackend, clientId: string, connected: bool)

  const PleaseWait := "Please wait until current audio finishes."
  const EmptyMessage := "Empty message received"
  const LlmFailed := "LLM processing failed: "
  const TtsFailed := "TTS conversion failed: "
  const Unexpected := "Unexpected error: "

  /** `_validate_input`: only a text that is empty or all whitespace is refused. */
  function Validate(text: string): Outcome<Error> {
    if Blank(text) then Fail(InvalidInputError(EmptyMessage)) else Pass
  }

  /**
   * The `try` body of `_process_message` for one text: validate, ask the LLM,
   * synthesize the LLM's reply and send the audio. `calls` are the backend
   * invocations made, `frames` what was sent, `failure` the exception raised.
   */
  datatype Attempt = Attempt(calls: seq<BackendCall>, frames: seq<Frame>, failure: Option<Error>)

  function TryPipeline(env: Env, text: string): Attempt {
    if Validate(text).Fail? then Attempt([], [], Some(Validate(text).error))
    else
      var request := LlmRequest(text, None);
      match env.llm(request)
      case Failure(m) => Attempt([LlmCall(request)], [], Some(LlmServiceError(LlmFailed + m)))
      case Success(response) =>
        var speech := TtsRequest(response.text);
        var calls := [LlmCall(request), TtsCall(speech)];
        match env.tts(speech)
        case Failure(m) => Attempt(calls, [], Some(TtsServiceError(TtsFailed + m)))
        case Success(audio) =>
          if env.connected then Attempt(calls, [BinaryFrame(audio.audio)], None)
          else Attempt(calls, [], Some(TtsServiceError(TtsFailed + NoConnection(env.clientId).message)))
  }

  /** The text `_process_message` reports for a caught exception. */
  function Report(e: Error): string {
    match e
    case LlmServiceError(m) => m
    case TtsServiceError(m) => m
    case _ => Unexpected + e.message
  }

  /**
   * The effect of one public call: the new `busy` and queue, the frames sent to
   * the client, the backend calls made, and whether an exception escaped.
   */
  datatype Run = Run(busy: bool, queue: seq<string>, frames: seq<Frame>, calls: seq<BackendCall>,
                     outcome: Outcome<Error>)

  /** `r`, preceded by `calls` made and `frames` sent. */
  function After(calls: seq<BackendCall>, frames: seq<Frame>, r: Run): Run {
    r.(frames := frames + r.frames, calls := calls + r.calls)
  }

  /** `_process_message(text)` with `queue` waiting: busy is set, then the attempt is made. */
  function ProcessRun(env: Env, text: string, queue: seq<string>): Run
    decreases |queue|, 2
  {
    var attempt := TryPipeline(env, text);
    match attempt.failure
    case None => Run(true, queue, attempt.frames, attempt.calls, Pass)
    case Some(e) => After(attempt.calls, attempt.frames, HandleErrorRun(env, Report(e), queue))
  }

  /**
   * `_handle_error(message)`, entered busy: report, then go idle and start the
   * queue's head. If the report cannot be sent the exception escapes and busy stays set.
   */
  function HandleErrorRun(env: Env, message: string, queue: seq<string>): Run
    decreases |queue|, 1
  {
    if !env.connected then Run(true, queue, [], [], Fail(NoConnection(env.clientId)))
    else After([], [TextFrame(message)], ReadyRun(env, queue))
  }

  /** `ready_for_next()`: go idle, then start the queue's head if there is one. */
  function ReadyRun(env: Env, queue: seq<string>): Run
    decreases |queue|, 0
  {
    if queue == [] then Run(false, [], [], [], Pass)
    else ProcessRun(env, queue[0], queue[1..])
  }

  /** `add_message(text)`: queue it with a notice when busy, otherwise process it now. */
  function AddMessageRun(env: Env, busy: bool, queue: seq<string>, text: string): Run {
    if busy then
      if env.connected then Run(true, queue + [text], [TextFrame(PleaseWait)], [], Pass)
      else Run(true, queue + [text], [], [], Fail(NoConnection(env.clientId)))
    else ProcessRun(env, text, queue)
  }

  /* ---------------- What the definitions above amount to ---------------- */

  /** `_process_message` in two cases: the attempt succeeds, or its exception goes to `_handle_error`. */
  lemma ProcessCases(env: Env, text: string, queue: seq<string>)
    ensures var attempt := TryPipeline(env, text);
            ProcessRun(env, text, queue) ==
              if attempt.failure.Some? then After(attempt.calls, attempt.frames, HandleErrorRun(env, Report(attempt.failure.value), queue))
              else Run(true, queue, attempt.frames, attempt.calls, Pass)
  {
  }

  /** The attempt on `text` raises, so its item ends in an error report. */
  predicate Fails(env: Env, text: string) {
    TryPipeline(env, text).failure.Some?
  }

  /** The frames an attempt leads to while the client is registered: its own, then its report. */
  function Emitted(attempt: Attempt): seq<Frame> {
    if attempt.failure.Some? then attempt.frames + [TextFrame(Report(attempt.failure.value))]
    else attempt.frames
  }

  /** The attempt made on each of `items`. */
  function Attempts(env: Env, items: seq<string>): (r: seq<Attempt>)
    ensures |r| == |items|
    ensures forall i :: 0 <= i < |items| ==> r[i] == TryPipeline(env, items[i])
  {
    if items == [] then [] else [TryPipeline(env, items[0])] + Attempts(env, items[1..])
  }

  /** The frames of `attempts` made one after the other. */
  function Transcript(attempts: seq<Attempt>): seq<Frame> {
    if attempts == [] then [] else Emitted(attempts[0]) + Transcript(attempts[1..])
  }

  /** The backend calls of `attempts` made one after the other. */
  function CallLog(attempts: seq<Attempt>): seq<BackendCall> {
    if attempts == [] then [] else attempts[0].calls + CallLog(attempts[1..])
  }

  /** The position of the first attempt that succeeds, or |attempts| if all fail. */
  function FirstSuccess(attempts: seq<Attempt>): (k: nat)
    ensures k <= |attempts|
    ensures forall j :: 0 <= j < k ==> attempts[j].failure.Some?
    ensures k < |attempts| ==> attempts[k].failure.None?
  {
    if attempts == [] || attempts[0].failure.None? then 0
    else
      var rest := FirstSuccess(attempts[1..]);
      assert forall j :: 0 < j <= rest ==> attempts[j] == attempts[1..][j - 1];
      1 + rest
  }

  /** A failed attempt has sent nothing of its own: only a success sends a frame. */
  lemma FailureSilent(env: Env, text: string)
    requires Fails(env, text)
    ensures TryPipeline(env, text).frames == []
  {
  }

  /** A failed item, while registered: its report is sent and the manager acts as on `ready_for_next`. */
  lemma FailedItem(env: Env, text: string, queue: seq<string>)
    requires env.connected && Fails(env, text)
    ensures ProcessRun(env, text, queue) ==
              After(TryPipeline(env, text).calls, Emitted(TryPipeline(env, text)), ReadyRun(env, queue))
  {
    var attempt := TryPipeline(env, text);
    var report := TextFrame(Report(attempt.failure.value));
    var next := ReadyRun(env, queue);
    FailureSilent(env, text);
    assert Emitted(attempt) == [report];
    var handled := HandleErrorRun(env, Report(attempt.failure.value), queue);
    assert handled == After([], [report], next);
    assert ProcessRun(env, text, queue) == After(attempt.calls, [], handled);
    assert [] + ([report] + next.frames) == [report] + next.frames;
    assert attempt.calls + ([] + next.calls) == attempt.calls + next.calls;
  }

  /** A successful item: the audio frame is sent and the manager stays busy with `queue` waiting. */
  lemma SucceededItem(env: Env, text: string, queue: seq<string>)
    requires !Fails(env, text)
    ensures ProcessRun(env, text, queue) ==
              Run(true, queue, Emitted(TryPipeline(env, text)), TryPipeline(env, text).calls, Pass)
  {
  }

  /**
   * What processing `text` with `queue` waiting amounts to: the items `[text] + queue`
   * are handled in order up to and including the first whose attempt succeeds; a
   * success leaves the manager busy with the later items waiting, a run of
   * failures to the end leaves it idle with nothing waiting.
   */
  ghost predicate Drains(env: Env, text: string, queue: seq<string>) {
    var items := [text] + queue;
    var attempts := Attempts(env, items);
    var k := FirstSuccess(attempts);
    var handled := if k < |items| then k + 1 else |items|;
    var r := ProcessRun(env, text, queue);
    && r.outcome == Pass
    && (r.busy <==> k < |items|)
    && r.queue == items[handled..]
    && r.frames == Transcript(attempts[..handled])
    && r.calls == CallLog(attempts[..handled])
  }

  /** One step of the drain: a failed head hands over to the rest of the queue. */
  lemma DrainStep(env: Env, text: string, queue: seq<string>)
    requires env.connected && Fails(env, text) && queue != []
    requires Drains(env, queue[0], queue[1..])
    ensures Drains(env, text, queue)
  {
    var first := TryPipeline(env, text);
    FailedItem(env, text, queue);
    var r := ProcessRun(env, text, queue);
    var r' := ProcessRun(env, queue[0], queue[1..]);
    assert r == After(first.calls, Emitted(first), r');
    assert [queue[0]] + queue[1..] == queue;
    var items := [text] + queue;
    var rest := Attempts(env, queue);
    var attempts := Attempts(env, items);
    assert attempts == [first] + rest;
    var k := FirstSuccess(rest);
    var handled := if k < |queue| then k + 1 else |queue|;
    assert FirstSuccess(attempts) == k + 1;
    var prefix := attempts[..handled + 1];
    assert prefix == [first] + rest[..handled];
    assert prefix[0] == first && prefix[1..] == rest[..handled];
    assert Transcript(prefix) == Emitted(first) + Transcript(rest[..handled]);
    assert CallLog(prefix) == first.calls + CallLog(rest[..handled]);
    assert items[handled + 1..] == queue[handled..];
  }

  /**
   * The error drain: processing `text` with `queue` waiting handles `text` and
   * then the queue's items strictly in FIFO order, one item per failure, up to
   * and including the first item that succeeds (see Drains). The model's drain
   * terminates because each failure consumes one queued item; the source nests
   * one call frame per failure, which Python's recursion limit bounds.
   */
  lemma {:induction false} DrainInOrder(env: Env, text: string, queue: seq<string>)
    requires env.connected
    ensures Drains(env, text, queue)
    decreases |queue|
  {
    var items := [text] + queue;
    var attempts := Attempts(env, items);
    var first := TryPipeline(env, text);
    assert attempts[0] == first;
    if first.failure.None? {
      SucceededItem(env, text, queue);
      assert attempts[..1] == [first];
    } else if queue == [] {
      FailedItem(env, text, queue);
      assert attempts[..1] == attempts == [first];
    } else {
      DrainInOrder(env, queue[0], queue[1..]);
      DrainStep(env, text, queue);
    }
  }

  /**
   * An empty or whitespace-only text: InvalidInputError is not an LLM or TTS
   * error, so it is reported by the generic handler; no backend is called, and
   * the manager then goes on as on `ready_for_next`.
   */
  lemma BlankInput(env: Env, text: string, queue: seq<string>)
    requires env.connected && Blank(text)
    ensures ProcessRun(env, text, queue) ==
              After([], [TextFrame(Unexpected + EmptyMessage)], ReadyRun(env, queue))
  {
    FailedItem(env, text, queue);
  }

  /**
   * A blank text sent to an idle manager (which has nothing waiting): reported,
   * no backend called, and the manager ends idle with nothing waiting, though
   * it passed through busy on the way.
   */
  lemma BlankWhileIdle(env: Env, text: string)
    requires env.connected && Blank(text)
    ensures AddMessageRun(env, false, [], text) ==
              Run(false, [], [TextFrame(Unexpected + EmptyMessage)], [], Pass)
  {
    BlankInput(env, text, []);
  }

  /** An LLM failure is reported with its prefix, TTS is not called, and the queue advances. */
  lemma LlmFailure(env: Env, text: string, queue: seq<string>)
    requires env.connected && !Blank(text)
    requires env.llm(LlmRequest(text, None)).Failure?
    ensures ProcessRun(env, text, queue) ==
              After([LlmCall(LlmRequest(text, None))],
                    [TextFrame(LlmFailed + env.llm(LlmRequest(text, None)).error)], ReadyRun(env, queue))
  {
    FailedItem(env, text, queue);
  }

  /** TTS is given the LLM's reply, not the input; its failure is reported and the queue advances. */
  lemma TtsFailure(env: Env, text: string, queue: seq<string>)
    requires env.connected && !Blank(text)
    requires env.llm(LlmRequest(text, None)).Success?
    requires env.tts(TtsRequest(env.llm(LlmRequest(text, None)).value.text)).Failure?
    ensures var speech := TtsRequest(env.llm(LlmRequest(text, None)).value.text);
            ProcessRun(env, text, queue) ==
              After([LlmCall(LlmRequest(text, None)), TtsCall(speech)],
                    [TextFrame(TtsFailed + env.tts(speech).error)], ReadyRun(env, queue))
  {
    FailedItem(env, text, queue);
  }

  /**
   * The success path: exactly one binary frame, carrying the synthesis of the
   * LLM's reply, and the manager stays busy until `ready_for_next`.
   */
  lemma SuccessPath(env: Env, text: string, queue: seq<string>)
    requires env.connected && !Blank(text)
    requires env.llm(LlmRequest(text, None)).Success?
    requires env.tts(TtsRequest(env.llm(LlmRequest(text, None)).value.text)).Success?
    ensures var speech := TtsRequest(env.llm(LlmRequest(text, None)).value.text);
            ProcessRun(env, text, queue) ==
              Run(true, queue, [BinaryFrame(env.tts(speech).value.audio)],
                  [LlmCall(LlmRequest(text, None)), TtsCall(speech)], Pass)
  {
    SucceededItem(env, text, queue);
  }

  /** An attempt succeeds exactly when the text is not blank and both backends and the send succeed. */
  lemma AttemptSucceeds(env: Env, text: string)
    ensures var reply := env.llm(LlmRequest(text, None));
            !Fails(env, text) <==>
              && !Blank(text) && reply.Success?
              && env.tts(TtsRequest(reply.value.text)).Success?
              && env.connected
  {
  }

  /**
   * With its client id gone, a processed item ends at the error report's send
   * (a failed audio send was already turned into a TTS error and reported): the
   * exception escapes, busy stays set, the queue is untouched and nothing reaches
   * the client. Backends may still have been called.
   */
  lemma Disconnected(env: Env, text: string, queue: seq<string>)
    requires !env.connected
    ensures var r := ProcessRun(env, text, queue);
            r == Run(true, queue, [], TryPipeline(env, text).calls, Fail(NoConnection(env.clientId)))
  {
    assert Fails(env, text);
  }

  /** The manager is never idle with texts waiting after processing an item. */
  lemma RestAfterProcess(env: Env, text: string, queue: seq<string>)
    ensures var r := ProcessRun(env, text, queue); !r.busy ==> r.queue == []
  {
    if env.connected {
      DrainInOrder(env, text, queue);
    } else {
      Disconnected(env, text, queue);
    }
  }

  /** `ready_for_next` leaves the manager idle only with an empty queue. */
  lemma RestAfterReady(env: Env, queue: seq<string>)
    ensures var r := ReadyRun(env, queue); !r.busy ==> r.queue == []
  {
    if queue != [] {
      RestAfterProcess(env, queue[0], queue[1..]);
    }
  }

  /** `add_message` keeps "idle implies nothing waiting". */
  lemma RestAfterAddMessage(env: Env, busy: bool, queue: seq<string>, text: string)
    requires !busy ==> queue == []
    ensures var r := AddMessageRun(env, busy, queue, text); !r.busy ==> r.queue == []
  {
    if !busy {
      RestAfterProcess(env, text, queue);
    }
  }
}

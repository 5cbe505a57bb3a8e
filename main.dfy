/**
 * app/main.py: the per-connection websocket endpoint. Each received text frame
 * is decoded as JSON and routed to the connection's ConversationManager; the
 * client id is registered first and removed however the frame loop ends.
 */
module Endpoint {
  import opened Wrappers
  import opened Schemas
  import opened WsManager
  import opened Pipeline
  import opened Conversation

  /** A decoded JSON value: an object (with its `type` and `text` members, if present) or anything else. */
  datatype Parsed = Object(msgType: Option<string>, text: Option<string>) | NonObject(typeName: string)

  /** One received text frame: not valid JSON, or the value it decodes to. */
  datatype Inbound = Malformed | Json(value: Parsed)

  const InvalidFormat := "Invalid message format"
  const UnknownType := "Unknown message type: "

  /** How an f-string renders `msg_type`: a missing member is `None`. */
  function TypeText(msgType: Option<string>): string {
    match msgType
    case None => "None"
    case Some(t) => t
  }

  /** `message.get("text", "")` */
  function TextOrEmpty(text: Option<string>): string {
    match text
    case None => ""
    case Some(t) => t
  }

  /** The exception `message.get` raises on a decoded value that is not an object. */
  function NoGet(typeName: string): Error {
    AttributeError("'" + typeName + "' object has no attribute 'get'")
  }

  /** `_handle_websocket_message(manager, message)` */
  function DispatchRun(env: Env, busy: bool, queue: seq<string>, message: Parsed): Run {
    match message
    case NonObject(name) => Run(busy, queue, [], [], Fail(NoGet(name)))
    case Object(msgType, text) =>
      if msgType == Some("message") then AddMessageRun(env, busy, queue, TextOrEmpty(text))
      else if msgType == Some("ready_for_next") then ReadyRun(env, queue)
      else if env.connected then Run(busy, queue, [TextFrame(UnknownType + TypeText(msgType))], [], Pass)
      else Run(busy, queue, [], [], Fail(NoConnection(env.clientId)))
  }

  /** One pass of the frame loop: undecodable JSON is answered, anything else dispatched. */
  function FrameRun(env: Env, busy: bool, queue: seq<string>, frame: Inbound): Run {
    match frame
    case Malformed =>
      if env.connected then Run(busy, queue, [TextFrame(InvalidFormat)], [], Pass)
      else Run(busy, queue, [], [], Fail(NoConnection(env.clientId)))
    case Json(message) => DispatchRun(env, busy, queue, message)
  }

  /**
   * The frame loop run on `frames` from a fresh manager (idle, nothing waiting):
   * each frame is handled in turn until one lets an exception escape.
   */
  function SessionRun(env: Env, frames: seq<Inbound>): Run
    decreases |frames|
  {
    if frames == [] then Run(false, [], [], [], Pass)
    else
      var before := SessionRun(env, frames[..|frames| - 1]);
      if before.outcome.Fail? then before
      else
        var step := FrameRun(env, before.busy, before.queue, frames[|frames| - 1]);
        Run(step.busy, step.queue, before.frames + step.frames, before.calls + step.calls, step.outcome)
  }

  /**
   * `_handle_websocket_message`: a "message" frame goes to `add_message` (a
   * missing `text` becomes ""), "ready_for_next" to `ready_for_next`, and any
   * other `type` is answered with an error text, leaving the manager as it was.
   */
  method HandleWebsocketMessage(manager: ConversationManager, message: Parsed) returns (outcome: Outcome<Error>)
    modifies manager, manager.wsManager`sent
    ensures manager.Performed(DispatchRun(old(manager.Env()), old(manager.busy), old(manager.queue), message))
    ensures outcome == DispatchRun(old(manager.Env()), old(manager.busy), old(manager.queue), message).outcome
    ensures message.Object? && message.msgType !in {Some("message"), Some("ready_for_next")} ==>
              manager.busy == old(manager.busy) && manager.queue == old(manager.queue) &&
              manager.backendCalls == old(manager.backendCalls)
  {
    match message {
      case NonObject(name) =>
        outcome := Fail(NoGet(name));
      case Object(msgType, text) =>
        if msgType == Some("message") {
          outcome := manager.AddMessage(TextOrEmpty(text));
        } else if msgType == Some("ready_for_next") {
          outcome := manager.ReadyForNext();
        } else {
          outcome := manager.wsManager.SendText(manager.clientId, UnknownType + TypeText(msgType));
        }
    }
  }

  /** The body of the frame loop: decode the frame, answering one that is not JSON. */
  method ReceiveFrame(manager: ConversationManager, frame: Inbound) returns (outcome: Outcome<Error>)
    modifies manager, manager.wsManager`sent
    ensures manager.Performed(FrameRun(old(manager.Env()), old(manager.busy), old(manager.queue), frame))
    ensures outcome == FrameRun(old(manager.Env()), old(manager.busy), old(manager.queue), frame).outcome
  {
    match frame {
      case Malformed =>
        outcome := manager.wsManager.SendText(manager.clientId, InvalidFormat);
      case Json(message) =>
        outcome := HandleWebsocketMessage(manager, message);
    }
  }

  /**
   * `websocket_endpoint`: register the channel, build a fresh manager, run the
   * frame loop over the frames the client sends (an undecodable frame is answered
   * and the loop goes on), and unregister the client id however the loop ends.
   */
  method WebsocketEndpoint(registry: WebSocketManager, websocket: Socket, clientId: string,
                           llm: LlmBackend, tts: TtsBackend, frames: seq<Inbound>)
    returns (outcome: Outcome<Error>)
    modifies registry
    ensures registry.activeConnections == old(registry.activeConnections) - {clientId}
    ensures var r := SessionRun(Pipeline.Env(llm, tts, clientId, true), frames);
            registry.sent == old(registry.sent) + Deliveries(websocket, r.frames) && outcome == r.outcome
  {
    registry.Connect(websocket, clientId);
    var manager := new ConversationManager(llm, tts, registry, clientId);
    ghost var env := Pipeline.Env(llm, tts, clientId, true);
    ghost var conns := registry.activeConnections;
    ghost var sent0 := registry.sent;
    outcome := Pass;
    var i := 0;
    while i < |frames| && outcome.Pass?
      invariant 0 <= i <= |frames|
      decreases |frames| - i
      invariant registry.activeConnections == conns && conns[clientId] == websocket
      invariant manager.Env() == env
      invariant var r := SessionRun(env, frames[..i]);
                && outcome == r.outcome && manager.busy == r.busy && manager.queue == r.queue
                && registry.sent == sent0 + Deliveries(websocket, r.frames)
    {
      ghost var before := SessionRun(env, frames[..i]);
      ghost var sentBefore := registry.sent;
      ghost var step := FrameRun(env, manager.busy, manager.queue, frames[i]);
      outcome := ReceiveFrame(manager, frames[i]);
      assert registry.sent == sentBefore + Deliveries(websocket, step.frames);
      SessionSent(env, frames, i, websocket, sent0);
      ghost var after := SessionRun(env, frames[..i + 1]);
      assert registry.activeConnections == conns;
      assert manager.Env() == env;
      assert outcome == after.outcome && manager.busy == after.busy && manager.queue == after.queue;
      assert registry.sent == sent0 + Deliveries(websocket, after.frames);
      i := i + 1;
    }
    SessionStops(env, frames, i);
    registry.Disconnect(clientId);
  }

  /** The frame loop's next pass, while nothing has escaped yet. */
  lemma SessionStep(env: Env, frames: seq<Inbound>, i: nat)
    requires i < |frames| && SessionRun(env, frames[..i]).outcome.Pass?
    ensures var before := SessionRun(env, frames[..i]);
            var step := FrameRun(env, before.busy, before.queue, frames[i]);
            SessionRun(env, frames[..i + 1]) ==
              Run(step.busy, step.queue, before.frames + step.frames, before.calls + step.calls, step.outcome)
  {
    assert frames[..i + 1][..i] == frames[..i];
  }

  /** What the next pass sends, appended to what was sent before it, is what the longer session sends. */
  lemma SessionSent(env: Env, frames: seq<Inbound>, i: nat, websocket: Socket, sent0: seq<Delivery>)
    requires i < |frames| && SessionRun(env, frames[..i]).outcome.Pass?
    ensures var before := SessionRun(env, frames[..i]);
            var step := FrameRun(env, before.busy, before.queue, frames[i]);
            var after := SessionRun(env, frames[..i + 1]);
            && after.busy == step.busy && after.queue == step.queue && after.outcome == step.outcome
            && sent0 + Deliveries(websocket, before.frames) + Deliveries(websocket, step.frames)
               == sent0 + Deliveries(websocket, after.frames)
  {
    var before := SessionRun(env, frames[..i]);
    var step := FrameRun(env, before.busy, before.queue, frames[i]);
    SessionStep(env, frames, i);
    DeliveriesAppend(websocket, before.frames, step.frames);
    AppendAssoc(sent0, Deliveries(websocket, before.frames), Deliveries(websocket, step.frames));
  }

  /** Once an exception has escaped, later frames are never read. */
  lemma {:induction false} SessionStops(env: Env, frames: seq<Inbound>, i: nat)
    requires i <= |frames|
    requires i < |frames| ==> SessionRun(env, frames[..i]).outcome.Fail?
    ensures SessionRun(env, frames) == SessionRun(env, frames[..i])
    decreases |frames| - i
  {
    if i < |frames| {
      var shorter := frames[..|frames| - 1];
      assert shorter[..i] == frames[..i];
      if i < |shorter| {
        SessionStops(env, shorter, i);
      } else {
        assert shorter == frames[..i];
      }
    } else {
      assert frames[..i] == frames;
    }
  }

  /* ---------------- What a session amounts to ---------------- */

  /** A frame whose handling raises: a decoded JSON value that is not an object. */
  predicate Escapes(frame: Inbound) {
    frame.Json? && frame.value.NonObject?
  }

  /** While the client stays registered, a frame that is not a non-object lets nothing escape. */
  lemma FramePasses(env: Env, busy: bool, queue: seq<string>, frame: Inbound)
    requires env.connected && !Escapes(frame)
    ensures FrameRun(env, busy, queue, frame).outcome == Pass
  {
    if frame.Json? && frame.value.msgType == Some("message") && !busy {
      DrainInOrder(env, TextOrEmpty(frame.value.text), queue);
    } else if frame.Json? && frame.value.msgType == Some("ready_for_next") && queue != [] {
      DrainInOrder(env, queue[0], queue[1..]);
    }
  }

  /** A frame keeps "idle implies nothing waiting". */
  lemma FrameRest(env: Env, busy: bool, queue: seq<string>, frame: Inbound)
    requires !busy ==> queue == []
    ensures var r := FrameRun(env, busy, queue, frame); !r.busy ==> r.queue == []
  {
    if frame.Json? && frame.value.Object? {
      if frame.value.msgType == Some("message") {
        RestAfterAddMessage(env, busy, queue, TextOrEmpty(frame.value.text));
      } else if frame.value.msgType == Some("ready_for_next") {
        RestAfterReady(env, queue);
      }
    }
  }

  /**
   * The invariant at rest: a connection starts idle with nothing waiting, and
   * after any sequence of frames an idle manager still has nothing waiting.
   */
  lemma {:induction false} SessionRest(env: Env, frames: seq<Inbound>)
    ensures var r := SessionRun(env, frames); !r.busy ==> r.queue == []
    decreases |frames|
  {
    if frames != [] {
      var shorter := frames[..|frames| - 1];
      SessionRest(env, shorter);
      var before := SessionRun(env, shorter);
      FrameRest(env, before.busy, before.queue, frames[|frames| - 1]);
    }
  }

  /** With the client registered throughout, a session without non-object frames ends normally. */
  lemma {:induction false} SessionPasses(env: Env, frames: seq<Inbound>)
    requires env.connected
    requires forall j :: 0 <= j < |frames| ==> !Escapes(frames[j])
    ensures SessionRun(env, frames).outcome == Pass
    decreases |frames|
  {
    if frames != [] {
      var shorter := frames[..|frames| - 1];
      assert forall j :: 0 <= j < |shorter| ==> shorter[j] == frames[j];
      SessionPasses(env, shorter);
      var before := SessionRun(env, shorter);
      FramePasses(env, before.busy, before.queue, frames[|frames| - 1]);
    }
  }

  /**
   * The first non-object frame ends the session: its AttributeError escapes
   * with the manager as the earlier frames left it, and no later frame is read.
   */
  lemma SessionEscapes(env: Env, frames: seq<Inbound>, j: nat)
    requires env.connected && j < |frames| && Escapes(frames[j])
    requires forall k :: 0 <= k < j ==> !Escapes(frames[k])
    ensures SessionRun(env, frames) ==
              SessionRun(env, frames[..j]).(outcome := Fail(NoGet(frames[j].value.typeName)))
  {
    var prefix := frames[..j];
    assert forall k :: 0 <= k < |prefix| ==> prefix[k] == frames[k];
    SessionPasses(env, prefix);
    SessionStep(env, frames, j);
    SessionStops(env, frames, j + 1);
  }

  /**
   * A frame that is not valid JSON is answered with "Invalid message format"
   * and the loop goes on: the manager's state is untouched and no backend is called.
   */
  lemma MalformedContinues(env: Env, frames: seq<Inbound>)
    requires env.connected && SessionRun(env, frames).outcome == Pass
    ensures SessionRun(env, frames + [Malformed]) ==
              SessionRun(env, frames).(frames := SessionRun(env, frames).frames + [TextFrame(InvalidFormat)])
  {
    assert (frames + [Malformed])[..|frames|] == frames;
  }

  /**
   * A frame of any other `type` (a missing one reads as None) is answered with
   * "Unknown message type: <type>" and leaves the manager's state untouched.
   */
  lemma UnknownTypeIgnored(env: Env, frames: seq<Inbound>, msgType: Option<string>, text: Option<string>)
    requires env.connected && SessionRun(env, frames).outcome == Pass
    requires msgType != Some("message") && msgType != Some("ready_for_next")
    ensures var r := SessionRun(env, frames);
            SessionRun(env, frames + [Json(Object(msgType, text))]) ==
              r.(frames := r.frames + [TextFrame(UnknownType + TypeText(msgType))])
  {
    assert (frames + [Json(Object(msgType, text))])[..|frames|] == frames;
  }

  /**
   * A "message" frame without `text` is processed as "": an idle manager
   * reports the empty-message error, calls no backend and moves to its queue.
   */
  lemma MissingText(env: Env, busy: bool, queue: seq<string>)
    requires env.connected && !busy
    ensures DispatchRun(env, busy, queue, Object(Some("message"), None)) ==
              After([], [TextFrame(Unexpected + EmptyMessage)], ReadyRun(env, queue))
  {
    BlankInput(env, "", queue);
  }

  /** A busy manager queues a "message" frame's text, with the please-wait notice and no backend call. */
  lemma MessageWhileBusy(env: Env, queue: seq<string>, text: Option<string>)
    requires env.connected
    ensures DispatchRun(env, true, queue, Object(Some("message"), text)) ==
              Run(true, queue + [TextOrEmpty(text)], [TextFrame(PleaseWait)], [], Pass)
  {
  }
}

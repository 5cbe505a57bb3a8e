/**
 * The test doubles of tests/conftest.py as concrete backends: both fail exactly
 * when their input contains "fail". Instantiating the pipeline with them gives
 * the conversation of tests/test_main.py and a worked error drain.
 */
module Mocks {
  import opened Wrappers
  import opened PyStr
  import opened Schemas
  import opened WsManager
  import opened Pipeline
  import opened Conversation

  const Marker := "fail"
  const ProcessedPrefix := "Processed: "
  const AudioPrefix := "audio_"
  const LlmRefusal := "Simulated LLM failure"
  const TtsRefusal := "Simulated TTS failure"

  /** `MockLLMService.get_response` */
  function MockLlm(request: LlmRequest): Result<LlmResponse, string> {
    if Contains(request.text, Marker) then Failure(LlmRefusal)
    else Success(LlmResponse(ProcessedPrefix + request.text, None))
  }

  /** `MockTTSService.text_to_speech`: the audio is the UTF-8 encoding of "audio_" + text. */
  function MockTts(request: TtsRequest): Result<AudioResponse, string> {
    if Contains(request.text, Marker) then Failure(TtsRefusal)
    else Success(AudioResponse(Utf8(AudioPrefix + request.text), Mp3))
  }

  /** A manager wired to the mocks, with `connected` saying whether its id is registered. */
  function MockEnv(clientId: string, connected: bool): Env {
    Pipeline.Env(MockLlm, MockTts, clientId, connected)
  }

  /** A prefix without the letter f neither creates nor hides a "fail". */
  lemma PrefixKeepsMarker(p: string, t: string)
    requires forall k :: 0 <= k < |p| ==> p[k] != 'f'
    ensures Contains(p + t, Marker) <==> Contains(t, Marker)
  {
    var s := p + t;
    var n := |p|;
    if Contains(t, Marker) {
      var i :| OccursAt(t, Marker, i);
      assert s[n + i..n + i + |Marker|] == t[i..i + |Marker|];
      assert OccursAt(s, Marker, n + i);
    }
    if Contains(s, Marker) {
      var i :| OccursAt(s, Marker, i);
      assert s[i] == s[i..i + |Marker|][0] == 'f';
      assert i >= n;
      assert t[i - n..i - n + |Marker|] == s[i..i + |Marker|];
      assert OccursAt(t, Marker, i - n);
    }
  }

  /**
   * Under the mocks, an item fails exactly when it is blank or contains "fail",
   * and it then always fails at the LLM: the mock TTS never sees a "fail" text,
   * since the LLM's reply is the input behind "Processed: ".
   */
  lemma MockFails(clientId: string, text: string)
    ensures Fails(MockEnv(clientId, true), text) <==> Blank(text) || Contains(text, Marker)
    ensures !Blank(text) ==> (MockLlm(LlmRequest(text, None)).Failure? <==> Contains(text, Marker))
    ensures MockLlm(LlmRequest(text, None)).Success? ==>
              MockTts(TtsRequest(MockLlm(LlmRequest(text, None)).value.text)).Success?
  {
    assert forall k :: 0 <= k < |ProcessedPrefix| ==> ProcessedPrefix[k] != 'f';
    PrefixKeepsMarker(ProcessedPrefix, text);
    AttemptSucceeds(MockEnv(clientId, true), text);
  }

  /**
   * For an ASCII text without "fail", the mock audio is byte for byte the text
   * "audio_" + text, as tests/test_main.py expects of `b"audio_test"`.
   */
  lemma MockAudioAscii(text: string)
    requires forall i :: 0 <= i < |text| ==> text[i] as int < 0x80
    requires !Contains(text, Marker)
    ensures MockTts(TtsRequest(text)).Success?
    ensures var audio := MockTts(TtsRequest(text)).value.audio;
            && |audio| == |AudioPrefix| + |text|
            && (forall i :: 0 <= i < |AudioPrefix| ==> audio[i] as int == AudioPrefix[i] as int)
            && (forall i :: 0 <= i < |text| ==> audio[|AudioPrefix| + i] as int == text[i] as int)
  {
    var full := AudioPrefix + text;
    assert forall i :: 0 <= i < |AudioPrefix| ==> AudioPrefix[i] as int < 0x80;
    assert forall i :: 0 <= i < |full| ==> full[i] as int < 0x80 by {
      forall i | 0 <= i < |full| ensures full[i] as int < 0x80 {
        if i >= |AudioPrefix| {
          assert full[i] == text[i - |AudioPrefix|];
        }
      }
    }
    Utf8Ascii(full);
    assert forall i :: 0 <= i < |text| ==> full[|AudioPrefix| + i] == text[i];
  }

  /**
   * A text that is not blank and has no "fail", from an idle manager: it is
   * spoken as "audio_Processed: " + text, and the manager stays busy.
   */
  lemma MockSpeaks(clientId: string, text: string)
    requires !Blank(text) && !Contains(text, Marker)
    ensures ProcessRun(MockEnv(clientId, true), text, []) ==
              Run(true, [], [BinaryFrame(Utf8(AudioPrefix + (ProcessedPrefix + text)))],
                  [LlmCall(LlmRequest(text, None)), TtsCall(TtsRequest(ProcessedPrefix + text))], Pass)
  {
    MockFails(clientId, text);
    SuccessPath(MockEnv(clientId, true), text, []);
  }

  /** A text containing "fail" is refused by the mock LLM, reported, and the queue's head is taken at once. */
  lemma MockRefuses(clientId: string, text: string, queue: seq<string>)
    requires Contains(text, Marker)
    ensures ProcessRun(MockEnv(clientId, true), text, queue) ==
              After([LlmCall(LlmRequest(text, None))],
                    [TextFrame(LlmFailed + LlmRefusal)],
                    ReadyRun(MockEnv(clientId, true), queue))
  {
    var env := MockEnv(clientId, true);
    var i :| OccursAt(text, Marker, i);
    assert text[i] == text[i..i + |Marker|][0] == 'f' && !IsSpace(text[i]);
    assert !Blank(text);
    assert env.llm(LlmRequest(text, None)) == Failure(LlmRefusal);
    LlmFailure(env, text, queue);
  }

  /**
   * Two texts containing "fail" ahead of a good one: each failure is
   * reported and the next item is taken at once, and the good one is spoken,
   * leaving the manager busy with nothing waiting.
   */
  lemma FailuresAreDrained(clientId: string, first: string, second: string, good: string)
    requires Contains(first, Marker) && Contains(second, Marker)
    requires !Blank(good) && !Contains(good, Marker)
    ensures var r := ProcessRun(MockEnv(clientId, true), first, [second, good]);
            && r.busy && r.queue == [] && r.outcome == Pass
            && r.frames == [TextFrame(LlmFailed + LlmRefusal),
                            TextFrame(LlmFailed + LlmRefusal),
                            BinaryFrame(Utf8(AudioPrefix + (ProcessedPrefix + good)))]
  {
    var env := MockEnv(clientId, true);
    var report := TextFrame(LlmFailed + LlmRefusal);
    var spoken := BinaryFrame(Utf8(AudioPrefix + (ProcessedPrefix + good)));
    var r3 := ProcessRun(env, good, []);
    MockSpeaks(clientId, good);
    assert r3.busy && r3.queue == [] && r3.frames == [spoken] && r3.outcome == Pass;
    var r2 := ProcessRun(env, second, [good]);
    MockRefuses(clientId, second, [good]);
    assert ReadyRun(env, [good]) == r3 by { assert [good][1..] == []; }
    assert r2.busy && r2.queue == [] && r2.frames == [report, spoken] && r2.outcome == Pass;
    var r1 := ProcessRun(env, first, [second, good]);
    MockRefuses(clientId, first, [second, good]);
    assert ReadyRun(env, [second, good]) == r2 by { assert [second, good][1..] == [good]; }
    assert r1.frames == [report] + [report, spoken];
  }

  /**
   * tests/test_main.py's simple conversation: with the mocks and a registered
   * client, "hello" leaves the manager busy and `ready_for_next` makes it idle.
   */
  method SimpleConversation() returns (busyAfterMessage: bool, busyAfterReady: bool)
    ensures busyAfterMessage && !busyAfterReady
  {
    var registry := new WebSocketManager();
    registry.Connect(Socket(0), "test_client");
    var manager := new ConversationManager(MockLlm, MockTts, registry, "test_client");
    assert !IsSpace("hello"[0]);
    assert !Contains("hello", Marker);
    MockSpeaks("test_client", "hello");
    var _ := manager.AddMessage("hello");
    busyAfterMessage := manager.Busy();
    var _ := manager.ReadyForNext();
    busyAfterReady := manager.Busy();
  }
}

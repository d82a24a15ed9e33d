/** The voice-chat pipeline of app.py: the per-session conversation histories
    (`CHAT_HISTORIES`) and the `agent_chat` request handler. */
module App {
  import opened Wrappers
  import Text

  // ---------------------------------------------------------------------------
  // Turns, histories and the prompt

  datatype Role = User | Assistant

  /** The role as stored in a history entry and written into the prompt. */
  function RoleName(role: Role): string
  {
    match role
    case User => "user"
    case Assistant => "assistant"
  }

  /** One history entry, `{"role": ..., "content": ...}`. */
  datatype Turn = Turn(role: Role, content: string)

  /** The turns of one session, oldest first. */
  type History = seq<Turn>

  /** What the generator is asked to continue: the last line of every prompt. */
  const PromptTrailer := "\nassistant:"

  /** One prompt line, `"{role}: {content}"`. */
  function RenderTurn(turn: Turn): string
  {
    RoleName(turn.role) + ": " + turn.content
  }

  function PromptLines(history: History): seq<string>
  {
    seq(|history|, i requires 0 <= i < |history| => RenderTurn(history[i]))
  }

  /** The prompt sent to the generator: every turn of the history on its own
      line, newline-joined, then the trailer. */
  function Prompt(history: History): string
  {
    Text.Join(PromptLines(history), "\n") + PromptTrailer
  }

  /** The prompt for a history whose last turn is `turn`: the lines of the
      earlier turns, then the line of `turn`, then the trailer. So the prompt
      built right after the user turn is recorded carries that turn. */
  lemma PromptEndsWithTurn(history: History, turn: Turn)
    ensures Prompt(history + [turn]) ==
      (if history == [] then "" else Text.Join(PromptLines(history), "\n") + "\n")
      + RoleName(turn.role) + ": " + turn.content + PromptTrailer
  {
    assert PromptLines(history + [turn]) == PromptLines(history) + [RenderTurn(turn)];
    if history != [] {
      Text.JoinAppend(PromptLines(history), RenderTurn(turn), "\n");
    }
  }

  /** History is never rewritten: the lines of earlier turns stay verbatim at
      the start of every later prompt, so prompts only grow. */
  lemma PromptExtends(history: History, more: History)
    requires history != [] && more != []
    ensures Text.Join(PromptLines(history), "\n") + "\n" <= Prompt(history + more)
    ensures |Prompt(history)| < |Prompt(history + more)|
  {
    assert PromptLines(history + more) == PromptLines(history) + PromptLines(more);
    Text.JoinExtends(PromptLines(history), PromptLines(more), "\n");
  }

  /** The role pattern every history keeps when calls run one after another:
      a user turn, then an assistant turn, call after call. */
  ghost predicate Alternating(history: History)
  {
    && |history| % 2 == 0
    && forall i :: 0 <= i < |history| ==> history[i].role == (if i % 2 == 0 then User else Assistant)
  }

  ghost predicate AllAlternating(histories: map<string, History>)
  {
    forall id :: id in histories ==> Alternating(histories[id])
  }

  /** The history of `sessionId`, empty when the session has not been seen. */
  function Lookup(histories: map<string, History>, sessionId: string): History
  {
    if sessionId in histories then histories[sessionId] else []
  }

  // ---------------------------------------------------------------------------
  // Requests, gateways and responses

  /** The uploaded `audio` file part. */
  datatype AudioUpload = AudioUpload(filename: string, data: seq<bv8>)

  /** `request.files.get("audio")` is `None` when the part is absent, and an
      uploaded file part is falsy when its filename is empty; the handler goes
      on only when the part is there and truthy. */
  predicate AudioProvided(audio: Option<AudioUpload>)
  {
    audio.Some? && audio.value.filename != ""
  }

  /** The three external services as seen by one call: each gives its result,
      or `None` when it raises. */
  datatype Gateways = Gateways(
    transcribe: AudioUpload -> Option<string>,
    generate: string -> Option<string>,
    synthesize: string -> Option<string>)

  /** The fixed substitutes used when a service call fails. */
  const SttFailedTranscript := "[STT failed]"
  const GenerationFallbackReply := "I'm having trouble connecting right now."
  const FallbackAudioUrl := "/static/fallback.mp3"

  const NoAudioError := "No audio provided"
  const StatusOk := 200
  const StatusBadRequest := 400

  /** The fields of `AgentChatResponse` (schemas/agent.py). */
  datatype AgentChatResponse = AgentChatResponse(
    sessionId: string,
    transcript: string,
    responseText: string,
    audioUrl: string,
    error: Option<string>)

  datatype Body = ErrorBody(error: string) | ChatBody(chat: AgentChatResponse)

  /** An HTTP status with its JSON body. */
  datatype Response = Response(status: nat, body: Body)

  datatype StepResult = StepResult(histories: map<string, History>, response: Response)

  /** One `agent_chat` call on the histories of all sessions: the new histories
      and the response. */
  function ChatStep(histories: map<string, History>, sessionId: string, audio: Option<AudioUpload>, gateways: Gateways): (r: StepResult)
    // Without audio: a 400 with the fixed message, and no session is created or changed.
    ensures !AudioProvided(audio) ==>
      r.histories == histories && r.response == Response(StatusBadRequest, ErrorBody(NoAudioError))
    // With audio: the session exists afterwards, no other session is touched,
    // and exactly two turns are appended to this one.
    ensures AudioProvided(audio) ==>
      var before := Lookup(histories, sessionId);
      && r.histories.Keys == histories.Keys + {sessionId}
      && (forall id :: id in histories && id != sessionId ==> r.histories[id] == histories[id])
      && |r.histories[sessionId]| == |before| + 2
      && r.histories[sessionId][..|before|] == before
    // With audio: a normal response that echoes the session and records the
    // transcript as the user turn and the reply as the assistant turn after it.
    ensures AudioProvided(audio) ==>
      var before := Lookup(histories, sessionId);
      && r.response.status == StatusOk
      && r.response.body.ChatBody?
      && r.response.body.chat.sessionId == sessionId
      && r.response.body.chat.error == None
      && r.histories[sessionId][|before|] == Turn(User, r.response.body.chat.transcript)
      && r.histories[sessionId][|before| + 1] == Turn(Assistant, r.response.body.chat.responseText)
    // Each stage uses the service's result, or its fixed substitute when the
    // service fails; the generator sees the whole history up to and including
    // the user turn just recorded, and speech is made from the reply.
    ensures AudioProvided(audio) ==>
      var before := Lookup(histories, sessionId);
      var chat := r.response.body.chat;
      && chat.transcript == gateways.transcribe(audio.value).GetOr(SttFailedTranscript)
      && chat.responseText == gateways.generate(Prompt(r.histories[sessionId][..|before| + 1])).GetOr(GenerationFallbackReply)
      && chat.audioUrl == gateways.synthesize(chat.responseText).GetOr(FallbackAudioUrl)
  {
    if !AudioProvided(audio) then
      StepResult(histories, Response(StatusBadRequest, ErrorBody(NoAudioError)))
    else
      var userText := gateways.transcribe(audio.value).GetOr(SttFailedTranscript);
      var withUser := Lookup(histories, sessionId) + [Turn(User, userText)];
      var assistantText := gateways.generate(Prompt(withUser)).GetOr(GenerationFallbackReply);
      var withReply := withUser + [Turn(Assistant, assistantText)];
      var audioUrl := gateways.synthesize(assistantText).GetOr(FallbackAudioUrl);
      StepResult(
        histories[sessionId := withReply],
        Response(StatusOk, ChatBody(AgentChatResponse(sessionId, userText, assistantText, audioUrl, None))))
  }

  /** A call keeps every history in the user-then-assistant pattern. */
  lemma ChatStepKeepsAlternating(histories: map<string, History>, sessionId: string, audio: Option<AudioUpload>, gateways: Gateways)
    requires AllAlternating(histories)
    ensures AllAlternating(ChatStep(histories, sessionId, audio, gateways).histories)
  {
  }

  // ---------------------------------------------------------------------------
  // Calls one after another

  /** One request to `/agent/chat/<session_id>`. */
  datatype Call = Call(sessionId: string, audio: Option<AudioUpload>, gateways: Gateways)

  /** The histories after the calls have run in order, one at a time. */
  function Replay(histories: map<string, History>, calls: seq<Call>): map<string, History>
    decreases |calls|
  {
    if calls == [] then histories
    else Replay(ChatStep(histories, calls[0].sessionId, calls[0].audio, calls[0].gateways).histories, calls[1..])
  }

  /** How many of the calls are for session `id` and carry audio. */
  function AcceptedFor(calls: seq<Call>, id: string): nat
  {
    if calls == [] then 0
    else (if calls[0].sessionId == id && AudioProvided(calls[0].audio) then 1 else 0) + AcceptedFor(calls[1..], id)
  }

  /** Calls for other sessions neither create nor change the history of `id`. */
  lemma {:induction false} ReplayIsolatesSessions(histories: map<string, History>, calls: seq<Call>, id: string)
    requires forall k :: 0 <= k < |calls| ==> calls[k].sessionId != id
    ensures id in Replay(histories, calls) <==> id in histories
    ensures Lookup(Replay(histories, calls), id) == Lookup(histories, id)
    decreases |calls|
  {
    if calls != [] {
      var next := ChatStep(histories, calls[0].sessionId, calls[0].audio, calls[0].gateways).histories;
      assert id in next <==> id in histories;
      assert Lookup(next, id) == Lookup(histories, id);
      ReplayIsolatesSessions(next, calls[1..], id);
    }
  }

  /** What one call does to the history of session `id`, by roles: a call for
      `id` with audio adds a user turn and an assistant turn, any other call
      leaves it as it is. */
  lemma ChatStepOnSession(histories: map<string, History>, call: Call, id: string)
    ensures var before := Lookup(histories, id);
      var middle := Lookup(ChatStep(histories, call.sessionId, call.audio, call.gateways).histories, id);
      && |middle| == |before| + (if call.sessionId == id && AudioProvided(call.audio) then 2 else 0)
      && middle[..|before|] == before
      && (call.sessionId == id && AudioProvided(call.audio) ==>
            middle[|before|].role == User && middle[|before| + 1].role == Assistant)
  {
  }

  /** Among any calls, interleaved across sessions: the N calls for `id` that
      carry audio append exactly 2N turns to its history, user then assistant
      for each call, after the turns it already had (none for a session not
      seen before). Every other call leaves it as it is. */
  lemma {:induction false} ReplayOneSession(histories: map<string, History>, calls: seq<Call>, id: string)
    decreases |calls|
    ensures var before := Lookup(histories, id);
      var after := Lookup(Replay(histories, calls), id);
      && |after| == |before| + 2 * AcceptedFor(calls, id)
      && after[..|before|] == before
      && forall j :: |before| <= j < |after| ==>
           after[j].role == (if (j - |before|) % 2 == 0 then User else Assistant)
  {
    if calls != [] {
      var before := Lookup(histories, id);
      var next := ChatStep(histories, calls[0].sessionId, calls[0].audio, calls[0].gateways).histories;
      var middle := Lookup(next, id);
      ChatStepOnSession(histories, calls[0], id);
      ReplayOneSession(next, calls[1..], id);
      var after := Lookup(Replay(next, calls[1..]), id);
      assert Replay(histories, calls) == Replay(next, calls[1..]);
      assert after[..|before|] == after[..|middle|][..|before|];
      forall j | |before| <= j < |after|
        ensures after[j].role == (if (j - |before|) % 2 == 0 then User else Assistant)
      {
        if j < |middle| {
          assert after[j] == after[..|middle|][j];
        } else {
          assert (j - |middle|) % 2 == (j - |before|) % 2;
        }
      }
    }
  }

  /** Running two batches of calls one after the other is running them all. */
  lemma {:induction false} ReplaySplit(histories: map<string, History>, first: seq<Call>, second: seq<Call>)
    decreases |first|
    ensures Replay(histories, first + second) == Replay(Replay(histories, first), second)
  {
    if first != [] {
      assert first + second != [] && (first + second)[0] == first[0];
      assert (first + second)[1..] == first[1..] + second;
      ReplaySplit(ChatStep(histories, first[0].sessionId, first[0].audio, first[0].gateways).histories, first[1..], second);
    } else {
      assert first + second == second;
    }
  }

  /** Turns land in call order: after a call with audio, the last two turns of
      its session are that call's transcript and reply, right after the turns
      recorded by the calls before it. */
  lemma ReplayLastCall(histories: map<string, History>, calls: seq<Call>, last: Call)
    requires AudioProvided(last.audio)
    ensures var earlier := Replay(histories, calls);
      var chat := ChatStep(earlier, last.sessionId, last.audio, last.gateways).response.body.chat;
      var after := Lookup(Replay(histories, calls + [last]), last.sessionId);
      && after == Lookup(earlier, last.sessionId) + [Turn(User, chat.transcript), Turn(Assistant, chat.responseText)]
  {
    ReplaySplit(histories, calls, [last]);
    var earlier := Replay(histories, calls);
    var next := ChatStep(earlier, last.sessionId, last.audio, last.gateways).histories;
    assert Replay(earlier, [last]) == Replay(next, []);
    var before := Lookup(earlier, last.sessionId);
    assert next[last.sessionId] == next[last.sessionId][..|before|] + [next[last.sessionId][|before|], next[last.sessionId][|before| + 1]];
  }

  /** Calls run one at a time keep every history in the user-then-assistant
      pattern. */
  lemma {:induction false} ReplayKeepsAlternating(histories: map<string, History>, calls: seq<Call>)
    requires AllAlternating(histories)
    ensures AllAlternating(Replay(histories, calls))
    decreases |calls|
  {
    if calls != [] {
      ChatStepKeepsAlternating(histories, calls[0].sessionId, calls[0].audio, calls[0].gateways);
      ReplayKeepsAlternating(ChatStep(histories, calls[0].sessionId, calls[0].audio, calls[0].gateways).histories, calls[1..]);
    }
  }

  // ---------------------------------------------------------------------------
  // The process-wide store and the handler

  /** `CHAT_HISTORIES`: the history of every session seen since start-up. */
  class SessionStore {
    var histories: map<string, History>

    /** Every session's turns alternate user, assistant. */
    ghost predicate Valid()
      reads this
    {
      AllAlternating(histories)
    }

    /** The store is empty when the process starts. */
    constructor ()
      ensures Valid() && histories == map[]
    {
      histories := map[];
    }

    /** `CHAT_HISTORIES.setdefault(session_id, [])`: give an unseen session an
        empty history and leave a known one as it is. */
    method SetDefault(sessionId: string)
      modifies this
      ensures histories == if sessionId in old(histories) then old(histories) else old(histories)[sessionId := []]
      ensures histories[sessionId] == Lookup(old(histories), sessionId)
    {
      if sessionId !in histories {
        histories := histories[sessionId := []];
      }
    }

    /** `history.append(...)` on the list stored for `sessionId`. */
    method Append(sessionId: string, turn: Turn)
      requires sessionId in histories
      modifies this
      ensures histories == old(histories)[sessionId := old(histories)[sessionId] + [turn]]
    {
      histories := histories[sessionId := histories[sessionId] + [turn]];
    }
  }

  /** `agent_chat(session_id)`: reject a request without audio, otherwise run
      transcription, record the user turn, generate a reply from the prompt of
      the whole history, record the reply, synthesise speech and answer with
      all four artefacts; a failing service is replaced by its fixed
      substitute and the call goes on. */
  method AgentChat(store: SessionStore, sessionId: string, audio: Option<AudioUpload>, gateways: Gateways)
    returns (response: Response)
    modifies store
    ensures old(store.Valid()) ==> store.Valid()
    ensures var step := ChatStep(old(store.histories), sessionId, audio, gateways);
      store.histories == step.histories && response == step.response
  {
    if !AudioProvided(audio) {
      return Response(StatusBadRequest, ErrorBody(NoAudioError));
    }
    ghost var initial := store.histories;
    ghost var before := Lookup(initial, sessionId);

    var userText: string;
    match gateways.transcribe(audio.value) {
      case Some(text) => userText := text;
      case None => userText := SttFailedTranscript;
    }
    assert userText == gateways.transcribe(audio.value).GetOr(SttFailedTranscript);

    store.SetDefault(sessionId);
    store.Append(sessionId, Turn(User, userText));
    assert store.histories == initial[sessionId := before + [Turn(User, userText)]];

    var assistantText: string;
    var prompt := Prompt(store.histories[sessionId]);
    match gateways.generate(prompt) {
      case Some(text) => assistantText := text;
      case None => assistantText := GenerationFallbackReply;
    }
    assert assistantText == gateways.generate(Prompt(before + [Turn(User, userText)])).GetOr(GenerationFallbackReply);

    store.Append(sessionId, Turn(Assistant, assistantText));
    assert store.histories == initial[sessionId := before + [Turn(User, userText)] + [Turn(Assistant, assistantText)]];

    var audioUrl: string;
    match gateways.synthesize(assistantText) {
      case Some(url) => audioUrl := url;
      case None => audioUrl := FallbackAudioUrl;
    }

    response := Response(StatusOk, ChatBody(AgentChatResponse(sessionId, userText, assistantText, audioUrl, None)));
    if AllAlternating(initial) {
      ChatStepKeepsAlternating(initial, sessionId, audio, gateways);
    }
  }

  // ---------------------------------------------------------------------------
  // A worked conversation

  /** Session "abc123": the first call is heard as "hello" and answered
      "hi there" with audio "R1"; the second call's transcription fails, so
      the placeholder is recorded and the session ends with four turns. */
  lemma TwoCallConversation(upload: AudioUpload, reply: string, url: string)
    requires upload.filename != ""
    ensures
      var first := Gateways(_ => Some("hello"), _ => Some("hi there"), _ => Some("R1"));
      var second := Gateways(_ => None, _ => Some(reply), _ => Some(url));
      var step1 := ChatStep(map[], "abc123", Some(upload), first);
      var step2 := ChatStep(step1.histories, "abc123", Some(upload), second);
      && step1.response == Response(StatusOk, ChatBody(AgentChatResponse("abc123", "hello", "hi there", "R1", None)))
      && step1.histories == map["abc123" := [Turn(User, "hello"), Turn(Assistant, "hi there")]]
      && step2.response == Response(StatusOk, ChatBody(AgentChatResponse("abc123", SttFailedTranscript, reply, url, None)))
      && step2.histories["abc123"] ==
           [Turn(User, "hello"), Turn(Assistant, "hi there"), Turn(User, SttFailedTranscript), Turn(Assistant, reply)]
      && Prompt(step2.histories["abc123"][..3])
           == "user: hello" + "\n" + "assistant: hi there" + "\n" + "user: [STT failed]" + "\nassistant:"
  {
    var first := Gateways(_ => Some("hello"), _ => Some("hi there"), _ => Some("R1"));
    var second := Gateways(_ => None, _ => Some(reply), _ => Some(url));
    var step1 := ChatStep(map[], "abc123", Some(upload), first);
    assert step1.histories["abc123"] == [Turn(User, "hello"), Turn(Assistant, "hi there")];
    assert Lookup(step1.histories, "abc123") == step1.histories["abc123"];
    assert second.transcribe(upload) == None;
    var step2 := ChatStep(step1.histories, "abc123", Some(upload), second);
    assert step2.histories["abc123"][..3] == [Turn(User, "hello"), Turn(Assistant, "hi there"), Turn(User, SttFailedTranscript)];
    ThirdTurnPrompt();
  }

  /** The prompt of the second call in that conversation, written out line by
      line: both earlier turns, the placeholder user turn, then the trailer. */
  lemma ThirdTurnPrompt()
    ensures Prompt([Turn(User, "hello"), Turn(Assistant, "hi there"), Turn(User, SttFailedTranscript)])
         == "user: hello" + "\n" + "assistant: hi there" + "\n" + "user: [STT failed]" + "\nassistant:"
  {
    var history := [Turn(User, "hello"), Turn(Assistant, "hi there"), Turn(User, SttFailedTranscript)];
    var lines := PromptLines(history);
    assert lines == [RenderTurn(history[0]), RenderTurn(history[1]), RenderTurn(history[2])];
    JoinThree(lines[0], lines[1], lines[2], "\n");
    assert lines[0] == "user: hello";
    assert lines[1] == "assistant: hi there";
    assert lines[2] == "user: [STT failed]";
  }

  lemma JoinThree(a: string, b: string, c: string, sep: string)
    ensures Text.Join([a, b, c], sep) == a + sep + b + sep + c
  {
    assert [b, c][1..] == [c];
    assert Text.Join([b, c], sep) == b + sep + c;
    assert [a, b, c][1..] == [b, c];
    assert Text.Join([a, b, c], sep) == a + sep + Text.Join([b, c], sep);
  }
}

# Voice agent: session pipeline and credential check, in Dafny

This project models the core of a small voice-chat server. A client posts
recorded audio to `/agent/chat/<session_id>`. The handler `agent_chat`
transcribes the audio and appends the transcript to that session's history as
a user turn. It then builds a prompt from the whole history, asks a language
model for a reply and appends the reply as an assistant turn. Finally it
synthesises speech for the reply and answers with the session id, transcript,
reply and audio URL. Each of the three services may fail; a failure is replaced
by a fixed value and the call goes on:

| stage | substitute on failure |
|---|---|
| transcription | `"[STT failed]"` |
| generation | `"I'm having trouble connecting right now."` |
| speech synthesis | `"/static/fallback.mp3"` |

A request without audio is answered with status 400 and
`{"error": "No audio provided"}` before anything else happens. The histories of
all sessions live in one process-wide dictionary, `CHAT_HISTORIES`, which gives
an unseen session an empty history on first use.

The second part is `Config.validate`. It runs at start-up and checks that the
three service credentials `ASSEMBLYAI_API_KEY`, `GEMINI_API_KEY` and
`MURF_API_KEY` are set. Otherwise it fails with
`Missing required environment variables: ` followed by the missing names,
joined with `", "`.

Files:

- `wrappers.dfy` (module `Wrappers`): `Option` for a service result or a
  Python `None`, and `Outcome` for a check that passes or raises.
- `text.dfy` (module `Text`): Python's `str.join` and two lemmas about
  appending parts.
- `config.dfy` (module `Config`): `Validate`, written as in the source with one
  conditional append per credential. It is specified by `MissingNames` over the
  credentials in their fixed order.
- `app.dfy` (module `App`): turns, the prompt, the pure step `ChatStep` for one
  call, `Replay` for many calls, the class `SessionStore` for `CHAT_HISTORIES`,
  and the imperative `AgentChat`. `AgentChat` is proved to do exactly what
  `ChatStep` says.

How the outside world enters the model:

- The three services are the fields of a `Gateways` value: total functions
  from the audio upload, the prompt and the reply text to `Option<string>`.
  `None` stands for "raised an exception". Every call gets its own
  `Gateways`, so different calls may see different service behaviour. The
  generator only ever sees the prompt.
- The credentials are parameters of type `Option<string>`. `None` stands for
  an unset variable, as `os.getenv` returns it.
- "Audio provided" means the `audio` part is present and truthy. An uploaded
  file part is falsy when its filename is empty (the truthiness rule of the
  web framework's file object). So `app.py:61` also rejects a part with an
  empty filename, and the `or "recording.webm"` default on `app.py:63` never
  applies. A check for an absent field alone would miss this case; the
  model follows the code.

## Model

| member | source | states |
|---|---|---|
| `App.ChatStep` | app.py:58-94 | Without audio: status 400 with "No audio provided", and the histories are unchanged, so no session is created. With audio: the session exists afterwards and every other session keeps its history. Exactly two turns are appended after the old ones: the user turn carrying the transcript, then the assistant turn carrying the reply. The response has status 200 and echoes the session id, transcript, reply and audio URL, with no error. The transcript is the transcriber's result or "[STT failed]". The reply is the generator's answer to the prompt of the whole history up to and including the new user turn, or the apology text. The audio URL is the synthesiser's result for the reply or "/static/fallback.mp3". |
| `App.AgentChat` | app.py:58-94 | The imperative handler, step by step against the store. Its new store contents and its response are exactly those of `ChatStep` on the old contents. If every history alternated user, assistant before the call, that still holds after it. |
| `App.SessionStore.constructor` | app.py:16 | The process starts with no sessions. |
| `App.SessionStore.SetDefault` | app.py:72 | An unseen session gets an empty history; a known session keeps its turns. Nothing else changes. |
| `App.SessionStore.Append` | app.py:73 | Appends one turn at the end of that session's history. Nothing else changes. |
| `App.PromptEndsWithTurn` | app.py:76 | The prompt of a history ending in a turn is the earlier turns' lines (newline-joined, then a newline), then `role: content` of that turn, then "\nassistant:". So the prompt built after recording the user turn ends with that turn's line. |
| `App.PromptExtends` | app.py:73-81 | History is append-only. The lines of earlier turns stay verbatim at the start of every later prompt, and prompts strictly grow. |
| `App.ChatStepOnSession` | app.py:72-81 | For a given session, a call for that session with audio appends two turns (user, then assistant) after the old ones. Any other call leaves that session's history as it was. |
| `App.ChatStepKeepsAlternating` | app.py:72-81 | If every history alternates user, assistant, it still does after one call. |
| `App.ReplayIsolatesSessions` | app.py:72 | Calls for other sessions never create or change the history of a session. |
| `App.ReplayOneSession` | app.py:72-81 | In any run of calls, interleaved across sessions, the N calls for one session that carry audio append exactly 2N turns after its earlier turns (none for an unseen session), alternating user, assistant. Calls without audio and calls for other sessions append nothing to it. |
| `App.ReplaySplit` | app.py:72-81 | Running two batches of calls one after the other gives the same histories as running them as one batch. |
| `App.ReplayLastCall` | app.py:72-81 | Turns land in call order: after a call with audio, its session's history is the history it had before that call, followed by that call's transcript as a user turn and its reply as an assistant turn. |
| `App.ReplayKeepsAlternating` | app.py:72-81 | Any sequence of calls, run one at a time, keeps every history alternating user, assistant. |
| `App.TwoCallConversation` | app.py:67-94 | A worked example on session "abc123". The first call records "hello" / "hi there" and returns audio "R1". A second call whose transcription fails returns and records "[STT failed]", and the session then has four turns. The second call's prompt is "user: hello", "assistant: hi there" and "user: [STT failed]" on separate lines, followed by "\nassistant:". |
| `App.ThirdTurnPrompt` | app.py:76 | The prompt of the history [user "hello", assistant "hi there", user "[STT failed]"], written out as a concrete string. |
| `Text.JoinAppend` | app.py:76 | Joining one more part adds exactly one separator and that part at the end. |
| `Config.Validate` | config.py:15-25 | Passes exactly when all three credentials are set, that is neither unset nor empty. Otherwise it fails with "Missing required environment variables: " followed by the missing names joined with ", ". |
| `Config.RequiredMissingNames` | config.py:17-23 | Each name is in the missing list exactly when its value is unset or empty. The list keeps the order ASSEMBLYAI_API_KEY, GEMINI_API_KEY, MURF_API_KEY, repeats no name, and is empty exactly when all three are set. |
| `Config.MissingNamesMembership` | config.py:18-23 | For any list of settings, a name is reported missing exactly when some setting with that name is unset or empty. |
| `Config.MissingNamesOrdered` | config.py:17-23 | The missing names are a subsequence of the settings' names, in their order. |

## Left out

- HTTP plumbing (routing, `request.files`, `jsonify`) is out. A response is
  modelled as a status and a body. The `error` field of `AgentChatResponse` is
  always empty (`None`).
- Saving the upload to the upload folder, building its path and generating the
  synthesis file name from the session id and the clock (app.py:63-65, 84)
  are filesystem and clock work and are out. `agent_chat` never deletes its
  upload, and the model adds no clean-up. The synthesiser therefore sees only
  the reply text.
- A failure outside the three service calls is not modelled, for example a
  failing save of the upload. It would surface as the framework's 500 response.
- The services' internals (services/stt_service.py, services/llm_service.py,
  services/tts_service.py) are out; each is only a result or a failure. A
  service that returns a non-string without raising is not modelled, for
  example a transcript whose text is `None`.
- In the source, the local `history` list aliases the list stored in
  `CHAT_HISTORIES`. The model appends through the store under the session id,
  which has the same effect.
- Concurrent requests are out. The server runs as a single process
  (app.py:97), but the development server handles requests on threads and
  there is no locking. Two calls for one session can then interleave between
  app.py:73 and app.py:81 and record user, user, assistant, assistant. The
  model assumes calls run one at a time: `SessionStore.Valid`,
  `ChatStepKeepsAlternating`, `ReplayKeepsAlternating` and the call-order
  lemmas hold only under that assumption.
- The stateless endpoints `llm_query`, `tts_echo` and
  `generate_from_transcript` (app.py:22-56) are out. Each is a single service
  call with a catch-all 500.
- Reading the environment (`load_dotenv`, `os.getenv`, config.py:4-9) is out;
  the three values are parameters. The constant folders and model name
  (config.py:11-13) are not used by the modelled logic. The start-up call of
  the check (app.py:13) is not modelled as a separate step.
- The browser script, the websocket echo server, the logger and the request
  schemas are out.

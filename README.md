# Ollama chat session coordinator — a Dafny model

This project models the server-side core of a real-time chat application that
streams replies from an Ollama completion backend over WebSockets:

- `src/chat-session.js`: the per-session coordinator `ChatSession` (a Durable
  Object). It holds a connection map (`sessions`), the ordered transcript
  (`conversationHistory`) and the selected model (`currentModel`). It accepts
  WebSocket upgrades and dispatches inbound messages by `type`. It turns
  attachments into content parts and drives one streamed exchange per `chat`
  message, popping the last transcript entry when the exchange fails.
- `src/index.js`: an older single-process server with one transcript per
  connection, a fixed model and no rollback.
- `src/worker.js`: the request router and the model catalogue.

Files:

- `wrappers.dfy`: `Option`, `Result`, JavaScript truthiness of optional strings.
- `text.dfy`: `startsWith`, `includes` and `split(',')[1]`.
- `protocol.dfy`: wire messages, transcript turns, the backend's streamed
  reply, and the stream messages and full response a reply yields.
- `transport.dfy`: `Socket`, a WebSocket whose `send` may throw. Which send
  calls throw is given up front by the set `failing`.
- `session.dfy`: module `Session`, the model of `src/chat-session.js`:
  - the pure specification (`Normalize`, `Exchange`, `TryBlock`, `Dispatch`, `Listener`);
  - the lemmas about it;
  - the class `ChatSession`, whose methods are proved to compute exactly
    those functions on the object's fields and the socket.
- `legacy_server.dfy`: module `LegacyServer`, the model of `src/index.js`.
- `worker.dfy`: module `Worker`, the model of `src/worker.js`.

How failures are modelled. Any `ws.send` call can throw, as decided by the
socket's `failing` set. The backend's behaviour is an input (`BackendReply`):
the parts it yields, then either a normal end or an error. The exchange
function `Exchange` is defined by where the first failure happens: at the
`ack`, at a `stream`, in the backend, at the `complete`, or nowhere. The
lemmas then state what each case leaves behind.

Behaviour of the code that the model keeps as written:

- There is no presence, relay or broadcast. The `sessions` map is written but never
  read. `presence`, `video-started` and `webrtc-*` messages get
  `Unknown message type: …`.
- Image parts carry the whole `file.data` data URL. The data-URI prefix is not
  stripped.
- The document label is `Content of <name>:` followed by a backslash and an `n`,
  not a newline.
- The rollback `pop()` removes whatever was pushed last, and it runs only after
  the `error` report was sent. So a transcript is not always restored to its
  state before the exchange:
  - when the `complete` send throws, the assistant turn is popped and the user
    turn stays (`ExchangeCompleteSendFailure`);
  - when the `error` report itself throws, nothing is popped (`ExchangeOutcomes`);
  - when the `ack` send throws, it is outside the try, and the user turn stays
    (`ExchangeOnClosedSocket`).
- A `model` given with a `chat` is selected before normalisation. It stays
  selected even when normalisation throws (`FileTypeErrorKeepsModel`).
- `src/index.js` never rolls back: a backend failure leaves the user turn in
  its transcript (`RollbackContrast`).

## Model

| member | source | states |
|---|---|---|
| `Text.IncludesIffOccurs` | src/chat-session.js:122 | `includes` holds exactly when the text occurs at some position |
| `Text.SecondField` | src/chat-session.js:123 | `split(',')[1]` is absent exactly when there is no comma; otherwise it is the comma-free text right after the first comma, up to the next comma or the end |
| `Protocol.StreamMessages` | src/chat-session.js:175-185 | at most one `stream` message per backend part, each with non-empty content |
| `Protocol.StreamedTextIsFullResponse` | src/chat-session.js:173-191 | the streamed increments concatenate to exactly `fullResponse`, the assistant turn's content |
| `Session.Classify` | src/chat-session.js:101-141 | attachment classes: image by `image/` type (URL = data unchanged); then video; then audio; then a text document exactly when the data looks like text and decodes; otherwise a plain document |
| `Session.Label` | src/chat-session.js:103-139 | an attachment becomes an image part exactly when it is an image; every text part names the file |
| `Session.LabelRoundTrip` | src/chat-session.js:103-139 | the class, image URL and decoded text of an attachment can all be read back from its part and the file name |
| `Session.Normalize` | src/chat-session.js:89-142 | building `messageContent` fails only with the TypeError a non-string file type raises; otherwise it yields the optional leading text part plus one part per file |
| `Session.NormalizeParts` | src/chat-session.js:89-142 | normalisation fails (with the TypeError) exactly when some file's type is not a string; otherwise it gives the optional leading text part, then exactly one part per file, in file order |
| `Session.BuildContent` | src/chat-session.js:89-142 | the loop over the files computes `Normalize` |
| `Session.UserContent` | src/chat-session.js:145-147 | the content is a bare string exactly when there is one part and it is text; the parts can always be recovered from it |
| `Session.ImageOnlyMessage` | src/chat-session.js:100-147 | one `image/png` file and no text give exactly one image part and no text part |
| `Session.TextWithDocument` | src/chat-session.js:92-128 | text plus a text document give the text part, then the labelled document text |
| `Session.FirstFailure` | src/chat-session.js:175-185 | the first failing send among a run of sends: all earlier ones succeed and it fails |
| `Transport.Socket.Send` | src/chat-session.js:153-156 | a `ws.send` call throws exactly when its call number is in the failing set. Every call counts, and only a call that does not throw delivers its message |
| `Session.Recover` | src/chat-session.js:198-208 | the catch makes exactly one more send call, and an exception escapes exactly when that call throws. If it does not throw, the `Error streaming from Ollama: …` message is delivered and the transcript loses exactly its last turn. If it throws, the transcript and messages stay as they were |
| `Session.TryBlock` | src/chat-session.js:158-208 | the try block and its catch make between one and (stream messages + 2) send calls. An exception escapes exactly when the last send call made throws |
| `Session.Exchange` | src/chat-session.js:150-208 | an exception escapes the exchange exactly when its last send call throws: the `ack` outside the try, or the `error` send in the catch |
| `Session.StreamedReplyIsFullResponse` | src/chat-session.js:173-196 | `ack`, the streams and `complete` carry exactly the full response as streamed text |
| `Session.ExchangeSucceeds` | src/chat-session.js:150-196 | with no failure, the transcript gains the user turn then the assistant turn holding what was streamed; the client gets `ack`, the streams, then `complete` |
| `Session.ExchangeBackendFailure` | src/chat-session.js:158-208 | a backend failure on a working socket sends one `error` after the streams and leaves the transcript as before the exchange |
| `Session.ExchangeStreamSendFailure` | src/chat-session.js:175-208 | a `stream` send that throws sends one `error` after the earlier streams and pops the user turn |
| `Session.ExchangeCompleteSendFailure` | src/chat-session.js:187-208 | a `complete` send that throws pops the assistant turn; the user turn stays |
| `Session.ExchangeOnClosedSocket` | src/chat-session.js:150-156 | on a socket whose sends all throw, the user turn stays, nothing is delivered and the exception escapes |
| `Session.TryBlockOutcomes` | src/chat-session.js:158-208 | the try block leaves the transcript popped, unchanged, or with the assistant turn. It sends a prefix of the streams, then at most one `error`, or `complete` after all streams. Only a failed send escapes, and then nothing was popped |
| `Session.ExchangeOutcomes` | src/chat-session.js:150-208 | whatever fails, the transcript gains at most the two turns and the messages are well ordered. Only a failed send escapes. The transcript is back to its earlier state only if an `error` was delivered last |
| `Session.SuccessfulExchangeAlternates` | src/chat-session.js:150-196 | a successful exchange keeps the transcript a sequence of user/assistant pairs and adds exactly one pair |
| `Session.NextModel` | src/chat-session.js:64-67 | the selected model changes only on a `chat` whose `model` is a non-empty string, and then becomes that value |
| `Session.Dispatch` | src/chat-session.js:61-85 | `clear` empties the transcript; any other non-`chat` type keeps it. Each makes exactly one send call, which delivers `cleared` or the `Unknown message type: …` error exactly when it does not throw |
| `Session.Report` | src/chat-session.js:30-36 | the outer catch keeps the transcript and adds a message only when an exception escaped, and that message is `Error: …` with the exception's message. The only exception it leaves unhandled is a failed send |
| `Session.Listener` | src/chat-session.js:26-37 | a frame that is not JSON keeps the transcript. A non-JSON frame and any non-`chat` message each get at most one reply. The only exception that escapes the listener is a failed send |
| `Session.UnknownTypeIsReported` | src/chat-session.js:79-83 | any type other than `chat` and `clear` gets exactly one `error` naming it, with no state change |
| `Session.ClearEmptiesHistory` | src/chat-session.js:71-77 | `clear` empties the transcript and replies `cleared` |
| `Session.ClearThenChat` | src/chat-session.js:61-85 | after `clear`, a successful chat leaves exactly a user turn and an assistant turn |
| `Session.FileTypeErrorKeepsModel` | src/chat-session.js:26-101 | a file whose type is not a string leaves the transcript unchanged and yields one `Error: …`; the model given with the message stays selected |
| `Session.MalformedIsReported` | src/chat-session.js:26-36 | a frame that is not JSON yields one `Error: …` and no state change |
| `Session.ChatSession.constructor` | src/chat-session.js:4-10 | a new session has no connections, an empty transcript and the default model |
| `Session.ChatSession.Fetch` | src/chat-session.js:12-59 | an `Upgrade` header other than `websocket` gets 426 and changes nothing. Otherwise the fresh id is mapped to the socket (one more connection) and one `welcome` carrying the current model is sent |
| `Session.ChatSession.Disconnect` | src/chat-session.js:39-47 | close or error removes the connection's id; removing an absent id changes nothing |
| `Session.ChatSession.HandleChat` | src/chat-session.js:87-209 | the transcript, delivered messages and escaped exception are those of `ChatTurn`. The backend request carries the current model and the transcript ending with the user turn |
| `Session.ChatSession.TryBlockStep` | src/chat-session.js:158-208 | the try block and its catch compute `TryBlock` |
| `Session.ForwardStream` | src/chat-session.js:173-185 | the loop sends the stream messages up to the first failing send and accumulates the full response |
| `Session.ChatSession.HandleMessage` | src/chat-session.js:61-85 | a truthy `model` on a `chat` is selected first; the effect on transcript and socket is `Dispatch` |
| `Session.ChatSession.OnMessage` | src/chat-session.js:26-37 | the listener's effect is `Listener`: dispatch, then one `Error: …` for an exception that escaped |
| `LegacyServer.ChatGrowth` | src/index.js:50-106 | a chat always keeps the user turn. The transcript grows by two on success and by one on backend failure. On success the assistant turn is the streamed text and `complete` comes last; on failure `error` comes last |
| `LegacyServer.RollbackContrast` | src/index.js:100-106 | on the same backend failure, the session coordinator's transcript is unchanged while this server's grows by one |
| `LegacyServer.ChatExchange` | src/index.js:50-106 | a `chat` appends the user turn right after the earlier transcript; the client gets one message, then exactly the stream messages, then one final message |
| `LegacyServer.Connection.constructor` | src/index.js:40-138 | each connection starts with its own empty transcript and one `welcome` carrying the fixed model |
| `LegacyServer.Connection.OnMessage` | src/index.js:46-122 | `chat` follows `ChatExchange` with the fixed model. `clear` empties the transcript and replies `cleared`. Other types do nothing. A non-JSON frame gets `Error processing message: …` |
| `Worker.Route` | src/worker.js:23-88 | exactly the eleven served paths are found. `/ws` goes to the `session` parameter when non-empty, otherwise to a fresh id. `/` and `/index.html` serve the HTML; `/app.js`, `/manifest.json` and `/sw.js` each serve their own asset with its content type. The three icon paths proxy the same URL. `/api/models` (and only it) lists the catalogue as JSON; `/health` (and only it) reports `ok` and the catalogue's size. Exactly the five asset paths serve a static asset |
| `Worker.TrailingSlashNotFound` | src/worker.js:27-87 | any served path, `/` included, with a trailing slash added is not found |
| `Worker.CatalogueFacts` | src/worker.js:7-19 | the catalogue has eleven entries with distinct ids, including the session's default model |

## Left out

- Durable Object and WebSocket plumbing are not modelled: `WebSocketPair`, `server.accept()`, `Response` objects and `env.CHAT_SESSION.idFromName/get`. A socket is `Transport.Socket`, and routing to a session object is the `ToSession` response.
- The Ollama client is not modelled. Its behaviour for a request is the input `BackendReply`. Host and API-key configuration are not modelled.
- `JSON.parse` and `JSON.stringify` are not modelled. An inbound frame is `Malformed` or a parsed `Envelope`, whose fields are strings. Non-string `type`, `content` or `model` values, a non-array `files`, and a frame that parses to `null` are not modelled.
- `atob` is the parameter `decode`, which returns None where `atob` would throw.
- `crypto.randomUUID()` is a parameter, `freshId`.
- Interleaving at `await` points between messages of one session is not modelled: each message is handled atomically.
- Engine-defined exception texts are constants of the model: `SendErrorText` for a throwing send, `FileTypeErrorText` for a non-string file type.
- Console logging, the health timestamp (a clock), and Express setup in `src/index.js` are not modelled: static files, its own `/health` route, `server.listen` and environment configuration.
- The embedded UI text of `src/worker.js` is not modelled: HTML, CSS, the client script, the manifest, the service worker and the icon.
- `LegacyServer.Connection.OnMessage` records every send unconditionally, because the `ws` library's `send` does not throw on an open or closing socket.
- `StreamPart` stands for an absent or empty `message.content` by "", and `done` is a boolean. Non-boolean truthy `done` values are not modelled.
- `Session.ChatSession.Fetch` does not model the listeners it registers. They are the methods `OnMessage` and `Disconnect`, which take the socket or id directly.

/** Messages crossing the WebSocket, transcript turns, and the shape of the
    completion backend's streamed reply. Shared by both servers. */
module Protocol {
  import opened Wrappers

  datatype Role = User | Assistant

  /** One element of a multi-part user message. */
  datatype ContentPart = TextPart(text: string) | ImageUrlPart(url: string)

  /** A turn's `content`: either a plain string or an array of parts. */
  datatype MessageContent = PlainText(text: string) | PartList(parts: seq<ContentPart>)

  /** One entry of `conversationHistory`. */
  datatype Turn = Turn(role: Role, content: MessageContent)

  /** An attachment descriptor as the client sends it. `mediaType` is None
      when `file.type` is not a string. */
  datatype FileDesc = FileDesc(name: string, mediaType: Option<string>, data: string)

  /** A successfully parsed inbound message; absent fields are None (or no files). */
  datatype Envelope = Envelope(msgType: string, content: Option<string>, model: Option<string>, files: seq<FileDesc>)

  /** An inbound WebSocket frame: either `JSON.parse` threw, or it yielded an envelope. */
  datatype Inbound = Malformed(parseError: string) | Parsed(env: Envelope)

  /** Messages the servers send, with their `type` as the constructor. */
  datatype Outbound =
    | Welcome(message: string, model: string)
    | Ack(message: string)
    | Stream(content: string, done: bool)
    | Complete(message: string)
    | Cleared(message: string)
    | ErrorMsg(message: string)

  const AckText: string := "Message received, generating response..."
  const CompleteText: string := "Response complete"
  const ClearedText: string := "Conversation history cleared"
  const StreamErrorPrefix: string := "Error streaming from Ollama: "

  /** One increment of the backend's reply; `content` is "" when
      `part.message?.content` is absent or empty, `done` is `part.done || false`. */
  datatype StreamPart = StreamPart(content: string, done: bool)

  /** Everything the backend does for one request: it yields `parts`, then
      either ends normally (failure None) or throws `failure`. A failure of
      the call itself is a reply with no parts. */
  datatype BackendReply = BackendReply(parts: seq<StreamPart>, failure: Option<string>)

  /** The `stream` messages forwarded for a run of parts: one per part with
      non-empty content, in arrival order. */
  function StreamMessages(parts: seq<StreamPart>): (r: seq<Outbound>)
    ensures |r| <= |parts|
    ensures forall m :: m in r ==> m.Stream? && m.content != ""
  {
    if parts == [] then []
    else
      var p := parts[|parts| - 1];
      StreamMessages(parts[..|parts| - 1]) + (if p.content != "" then [Stream(p.content, p.done)] else [])
  }

  /** `fullResponse` after consuming `parts`. */
  function FullResponse(parts: seq<StreamPart>): string {
    if parts == [] then ""
    else
      var p := parts[|parts| - 1];
      FullResponse(parts[..|parts| - 1]) + (if p.content != "" then p.content else "")
  }

  /** What a client reading the messages sees as streamed text: the
      concatenation of the `stream` contents, in order. */
  function StreamedText(msgs: seq<Outbound>): string {
    if msgs == [] then ""
    else
      var m := msgs[|msgs| - 1];
      StreamedText(msgs[..|msgs| - 1]) + (if m.Stream? then m.content else "")
  }

  lemma StreamedTextAppend(a: seq<Outbound>, b: seq<Outbound>)
    ensures StreamedText(a + b) == StreamedText(a) + StreamedText(b)
    decreases |b|
  {
    if b != [] {
      assert (a + b)[..|a + b| - 1] == a + b[..|b| - 1];
      StreamedTextAppend(a, b[..|b| - 1]);
    } else {
      assert a + b == a;
    }
  }

  /** The streamed increments concatenate to exactly the full response. */
  lemma {:induction false} StreamedTextIsFullResponse(parts: seq<StreamPart>)
    ensures StreamedText(StreamMessages(parts)) == FullResponse(parts)
    decreases |parts|
  {
    if parts != [] {
      var init := parts[..|parts| - 1];
      var p := parts[|parts| - 1];
      StreamedTextIsFullResponse(init);
      var tail := if p.content != "" then [Stream(p.content, p.done)] else [];
      StreamedTextAppend(StreamMessages(init), tail);
      if tail != [] {
        assert StreamedText(tail) == StreamedText([]) + p.content;
      }
    }
  }

  /** Extending the consumed prefix by one part adds at most that part's message. */
  lemma StreamMessagesStep(parts: seq<StreamPart>, i: nat)
    requires i < |parts|
    ensures StreamMessages(parts[..i + 1]) ==
      StreamMessages(parts[..i]) + (if parts[i].content != "" then [Stream(parts[i].content, parts[i].done)] else [])
    ensures FullResponse(parts[..i + 1]) ==
      FullResponse(parts[..i]) + (if parts[i].content != "" then parts[i].content else "")
  {
    assert parts[..i + 1][..i] == parts[..i];
  }

  /** The messages of a consumed prefix are a prefix of all the messages. */
  lemma {:induction false} StreamMessagesPrefix(parts: seq<StreamPart>, i: nat)
    requires i <= |parts|
    ensures StreamMessages(parts[..i]) <= StreamMessages(parts)
    decreases |parts|
  {
    if i < |parts| {
      var init := parts[..|parts| - 1];
      assert parts[..i] == init[..i];
      StreamMessagesPrefix(init, i);
    } else {
      assert parts[..i] == parts;
    }
  }
}

/** The older single-process server of src/index.js: one transcript per
    WebSocket connection, a fixed model, no attachments and no rollback. */
module LegacyServer {
  import opened Wrappers
  import opened Protocol
  import Session

  const Model: string := "deepseek-v3.1:671b-cloud"
  const WelcomeText: string := "Connected to Ollama Realtime Chat with " + Model
  const ProcessingErrorPrefix: string := "Error processing message: "

  /** A transcript entry; the user turn keeps `message.content` as it came,
      absent included. */
  datatype LegacyTurn = LegacyTurn(role: Role, content: Option<string>)

  /** The request `ollama.chat` is called with. */
  datatype LegacyRequest = LegacyRequest(model: string, messages: seq<LegacyTurn>)

  /** The transcript after a `chat` message, and the messages it sends:
      the user turn always stays; the assistant turn follows only when the
      backend did not fail. */
  function ChatExchange(h0: seq<LegacyTurn>, content: Option<string>, reply: BackendReply)
    : (r: (seq<LegacyTurn>, seq<Outbound>))
    ensures |r.1| >= 2 && r.1[1..|r.1| - 1] == StreamMessages(reply.parts)
    ensures |r.0| > |h0| && r.0[|h0|] == LegacyTurn(User, content)
  {
    var h1 := h0 + [LegacyTurn(User, content)];
    var streamed := [Ack(AckText)] + StreamMessages(reply.parts);
    match reply.failure
    case None => (h1 + [LegacyTurn(Assistant, Some(FullResponse(reply.parts)))], streamed + [Complete(CompleteText)])
    case Some(e) => (h1, streamed + [ErrorMsg(StreamErrorPrefix + e)])
  }

  /** A `chat` grows the transcript by two turns on success and by one on a
      backend failure, never rolling back; on success the assistant turn is
      what the client was streamed. */
  lemma ChatGrowth(h0: seq<LegacyTurn>, content: Option<string>, reply: BackendReply)
    ensures var (h, out) := ChatExchange(h0, content, reply);
      && h[..|h0| + 1] == h0 + [LegacyTurn(User, content)]
      && |h| == |h0| + (if reply.failure.None? then 2 else 1)
      && out[0] == Ack(AckText)
      && (reply.failure.None? ==>
            h[|h0| + 1].content == Some(StreamedText(out)) && out[|out| - 1] == Complete(CompleteText))
      && (reply.failure.Some? ==> out[|out| - 1] == ErrorMsg(StreamErrorPrefix + reply.failure.value))
  {
    var h1 := h0 + [LegacyTurn(User, content)];
    assert (h1 + [LegacyTurn(Assistant, Some(FullResponse(reply.parts)))])[..|h0| + 1] == h1;
    if reply.failure.None? {
      Session.StreamedReplyIsFullResponse(reply.parts);
    }
  }

  /** The two servers differ on a backend failure: the session coordinator
      rolls the user turn back, this server keeps it. */
  lemma RollbackContrast(h0: seq<Turn>, user: Turn, lh0: seq<LegacyTurn>, content: Option<string>,
                         reply: BackendReply, failing: iset<nat>, a0: nat)
    requires reply.failure.Some?
    requires forall j :: a0 <= j < a0 + |StreamMessages(reply.parts)| + 2 ==> j !in failing
    ensures Session.Exchange(h0, user, reply, failing, a0).history == h0
    ensures |ChatExchange(lh0, content, reply).0| == |lh0| + 1
  {
    Session.ExchangeBackendFailure(h0, user, reply, failing, a0);
  }

  /** The state one `wss.on('connection')` callback owns: its own transcript,
      and the messages sent on its socket. The `ws` library's `send` does not
      throw on an open or closing socket, so every send is recorded. */
  class Connection {
    var conversationHistory: seq<LegacyTurn>
    var sent: seq<Outbound>

    /** A new connection: an empty transcript of its own and one `welcome`. */
    constructor ()
      ensures conversationHistory == [] && sent == [Welcome(WelcomeText, Model)]
    {
      conversationHistory := [];
      sent := [Welcome(WelcomeText, Model)];
    }

    /** The `message` listener (lines 46-122). */
    method OnMessage(data: Inbound, reply: BackendReply) returns (request: Option<LegacyRequest>)
      modifies this
      ensures data.Malformed? ==>
        && conversationHistory == old(conversationHistory)
        && sent == old(sent) + [ErrorMsg(ProcessingErrorPrefix + data.parseError)]
        && request == None
      ensures data.Parsed? && data.env.msgType == "chat" ==>
        var (h, out) := ChatExchange(old(conversationHistory), data.env.content, reply);
        && conversationHistory == h
        && sent == old(sent) + out
        && request == Some(LegacyRequest(Model, old(conversationHistory) + [LegacyTurn(User, data.env.content)]))
      ensures data.Parsed? && data.env.msgType == "clear" ==>
        conversationHistory == [] && sent == old(sent) + [Cleared(ClearedText)] && request == None
      ensures data.Parsed? && data.env.msgType != "chat" && data.env.msgType != "clear" ==>
        conversationHistory == old(conversationHistory) && sent == old(sent) && request == None
    {
      request := None;
      if data.Malformed? {
        sent := sent + [ErrorMsg(ProcessingErrorPrefix + data.parseError)];
        return;
      }
      var message := data.env;
      if message.msgType == "chat" {
        conversationHistory := conversationHistory + [LegacyTurn(User, message.content)];
        sent := sent + [Ack(AckText)];
        request := Some(LegacyRequest(Model, conversationHistory));
        var s1 := sent;
        var parts := reply.parts;
        var fullResponse := "";
        var i := 0;
        while i < |parts|
          invariant 0 <= i <= |parts|
          invariant conversationHistory == old(conversationHistory) + [LegacyTurn(User, message.content)]
          invariant sent == s1 + StreamMessages(parts[..i])
          invariant fullResponse == FullResponse(parts[..i])
        {
          StreamMessagesStep(parts, i);
          var part := parts[i];
          if part.content != "" {
            fullResponse := fullResponse + part.content;
            sent := sent + [Stream(part.content, part.done)];
          }
          i := i + 1;
        }
        assert parts[..i] == parts;
        match reply.failure {
          case None =>
            conversationHistory := conversationHistory + [LegacyTurn(Assistant, Some(fullResponse))];
            sent := sent + [Complete(CompleteText)];
          case Some(e) =>
            sent := sent + [ErrorMsg(StreamErrorPrefix + e)];
        }
      } else if message.msgType == "clear" {
        conversationHistory := [];
        sent := sent + [Cleared(ClearedText)];
      }
    }
  }
}

/** The per-session coordinator of src/chat-session.js: one object owning the
    connection map, the conversation transcript and the selected model. */
module Session {
  import opened Wrappers
  import opened Text
  import opened Protocol
  import opened Transport

  const DefaultModel: string := "deepseek-v3.1:671b-cloud"
  const WelcomeText: string := "Connected to Ollama Chat - Multi-Model Edition"
  const UpgradeRequiredText: string := "Expected WebSocket upgrade"
  /** Prefix the message listener puts before an escaped exception's message. */
  const ListenerErrorPrefix: string := "Error: "
  const UnknownTypePrefix: string := "Unknown message type: "
  /** Message of the exception a throwing `ws.send` raises. */
  const SendErrorText: string := "WebSocket send failed"
  /** Message of the TypeError `file.type.startsWith` raises when `type` is not a string. */
  const FileTypeErrorText: string := "file.type.startsWith is not a function"

  /** The fresh identifier `crypto.randomUUID()` gives a connection. */
  type ConnectionId = string

  /** The Response `fetch` resolves to, or the rejection of its promise. */
  datatype FetchResponse =
    | UpgradeRequired(status: nat, body: string)
    | SwitchingProtocols(status: nat)
    | Rejected(message: string)

  /** The request `ollama.chat` is called with. */
  datatype BackendRequest = BackendRequest(model: string, messages: seq<Turn>)

  //
  // Attachment normalisation (lines 89-147)
  //

  /** The five ways an attachment is treated. */
  datatype Attachment =
    | ImageAttachment(url: string)
    | VideoAttachment
    | AudioAttachment
    | TextDocument(text: string)
    | OtherDocument

  predicate IsMedia(mediaType: string) {
    StartsWith(mediaType, "image/") || StartsWith(mediaType, "video/") || StartsWith(mediaType, "audio/")
  }

  /** Whether a document's data URL is taken to carry text. */
  predicate LooksLikeText(data: string) {
    StartsWith(data, "data:text/") || Includes(data, "text/plain")
  }

  /** The argument `atob` receives: the second comma-separated field of the
      data URL, or "undefined" when there is none (the missing array element
      is converted to that string). */
  function Base64Field(data: string): string {
    SecondField(data, ',').GetOr("undefined")
  }

  /** How an attachment with a string media type is treated; `decode` is
      `atob`, None where it throws. */
  function Classify(mediaType: string, data: string, decode: string -> Option<string>): (a: Attachment)
    ensures a.ImageAttachment? <==> StartsWith(mediaType, "image/")
    ensures a.ImageAttachment? ==> a.url == data
    ensures a.VideoAttachment? <==> !StartsWith(mediaType, "image/") && StartsWith(mediaType, "video/")
    ensures a.AudioAttachment? <==>
      !StartsWith(mediaType, "image/") && !StartsWith(mediaType, "video/") && StartsWith(mediaType, "audio/")
    ensures a.TextDocument? <==> !IsMedia(mediaType) && LooksLikeText(data) && decode(Base64Field(data)).Some?
    ensures a.TextDocument? ==> decode(Base64Field(data)) == Some(a.text)
  {
    if StartsWith(mediaType, "image/") then ImageAttachment(data)
    else if StartsWith(mediaType, "video/") then VideoAttachment
    else if StartsWith(mediaType, "audio/") then AudioAttachment
    else if LooksLikeText(data) then
      match decode(Base64Field(data))
      case Some(text) => TextDocument(text)
      case None => OtherDocument
    else OtherDocument
  }

  /** The content part an attachment becomes. The document label separates
      name and text by a backslash and an `n`, not by a newline. */
  function Label(name: string, a: Attachment): (p: ContentPart)
    ensures p.ImageUrlPart? <==> a.ImageAttachment?
    ensures p.TextPart? ==> Includes(p.text, name)
  {
    match a
    case ImageAttachment(url) => ImageUrlPart(url)
    case VideoAttachment =>
      IncludesMiddle("[Video file attached: ", name, "]");
      TextPart("[Video file attached: " + name + "]")
    case AudioAttachment =>
      IncludesMiddle("[Audio file attached: ", name, "]");
      TextPart("[Audio file attached: " + name + "]")
    case TextDocument(text) =>
      IncludesMiddle("Content of ", name, ":\\n" + text);
      assert "Content of " + name + ":\\n" + text == "Content of " + name + (":\\n" + text);
      TextPart("Content of " + name + ":\\n" + text)
    case OtherDocument =>
      IncludesMiddle("[Document attached: ", name, "]");
      TextPart("[Document attached: " + name + "]")
  }

  /** Reads back, from a part and the file name, how the attachment was treated. */
  function Unlabel(name: string, p: ContentPart): Option<Attachment> {
    match p
    case ImageUrlPart(url) => Some(ImageAttachment(url))
    case TextPart(t) =>
      if t == "[Video file attached: " + name + "]" then Some(VideoAttachment)
      else if t == "[Audio file attached: " + name + "]" then Some(AudioAttachment)
      else if t == "[Document attached: " + name + "]" then Some(OtherDocument)
      else if "Content of " + name + ":\\n" <= t then Some(TextDocument(t[|"Content of " + name + ":\\n"|..]))
      else None
  }

  /** No information is lost by labelling: the class of the attachment, its
      image URL and its decoded text can all be read back from the part. */
  lemma LabelRoundTrip(name: string, a: Attachment)
    ensures Unlabel(name, Label(name, a)) == Some(a)
  {
    var p := Label(name, a);
    match a
    case ImageAttachment(_) =>
    case VideoAttachment =>
    case AudioAttachment =>
      assert p.text[1] == 'A';
    case TextDocument(text) =>
      var head := "Content of " + name + ":\\n";
      assert p.text == head + text;
      assert p.text[0] == 'C';
    case OtherDocument =>
      assert p.text[1] == 'D';
  }

  /** The text part for a truthy `content`, if any. */
  function LeadingText(userMessage: Option<string>): seq<ContentPart> {
    if Truthy(userMessage) then [TextPart(userMessage.value)] else []
  }

  /** The part one file contributes. */
  function FilePart(f: FileDesc, decode: string -> Option<string>): ContentPart
    requires f.mediaType.Some?
  {
    Label(f.name, Classify(f.mediaType.value, f.data, decode))
  }

  /** `messageContent` after the files have been processed in order, or the
      TypeError of the first file whose type is not a string. */
  function Normalize(userMessage: Option<string>, files: seq<FileDesc>, decode: string -> Option<string>)
    : (r: Result<seq<ContentPart>>)
    ensures r.Err? ==> r.message == FileTypeErrorText
    ensures r.Ok? ==> |r.value| == |LeadingText(userMessage)| + |files|
    decreases |files|
  {
    if files == [] then Ok(LeadingText(userMessage))
    else
      match Normalize(userMessage, files[..|files| - 1], decode)
      case Err(e) => Err(e)
      case Ok(parts) =>
        var f := files[|files| - 1];
        if f.mediaType.None? then Err(FileTypeErrorText)
        else Ok(parts + [FilePart(f, decode)])
  }

  /** Normalisation keeps order: the optional leading text part, then exactly
      one part per file, in file order; it fails exactly when some file's
      type is not a string. */
  lemma {:induction false} NormalizeParts(userMessage: Option<string>, files: seq<FileDesc>, decode: string -> Option<string>)
    ensures Normalize(userMessage, files, decode).Ok? <==> forall i :: 0 <= i < |files| ==> files[i].mediaType.Some?
    ensures Normalize(userMessage, files, decode).Err? ==> Normalize(userMessage, files, decode).message == FileTypeErrorText
    ensures Normalize(userMessage, files, decode).Ok? ==>
      var ps := Normalize(userMessage, files, decode).value;
      var lead := LeadingText(userMessage);
      && |ps| == |lead| + |files|
      && ps[..|lead|] == lead
      && forall i :: 0 <= i < |files| ==> ps[|lead| + i] == FilePart(files[i], decode)
    decreases |files|
  {
    if files != [] {
      var init := files[..|files| - 1];
      NormalizeParts(userMessage, init, decode);
      assert forall i :: 0 <= i < |init| ==> init[i] == files[i];
    }
  }

  /** The user turn's content: the bare string when the only part is text,
      the part list otherwise (no parts, one image, or several parts). */
  function UserContent(parts: seq<ContentPart>): (c: MessageContent)
    ensures c.PlainText? <==> |parts| == 1 && parts[0].TextPart?
    ensures PartsOf(c) == parts
  {
    if |parts| == 1 && parts[0].TextPart? then PlainText(parts[0].text) else PartList(parts)
  }

  /** The parts a content value stands for. */
  function PartsOf(c: MessageContent): seq<ContentPart> {
    match c
    case PlainText(t) => [TextPart(t)]
    case PartList(ps) => ps
  }

  /** One image attachment and no text give a single image part, no text. */
  lemma ImageOnlyMessage(name: string, data: string, decode: string -> Option<string>)
    ensures Normalize(None, [FileDesc(name, Some("image/png"), data)], decode)
      == Ok([ImageUrlPart(data)])
    ensures UserContent([ImageUrlPart(data)]) == PartList([ImageUrlPart(data)])
  {
    var f := FileDesc(name, Some("image/png"), data);
    assert StartsWith("image/png", "image/") by {
      assert "image/png"[..6] == "image/";
    }
    assert FilePart(f, decode) == ImageUrlPart(data);
    assert [f][..0] == [];
    assert Normalize(None, [], decode) == Ok([]);
    assert Normalize(None, [f], decode) == Ok([] + [FilePart(f, decode)]);
    assert [] + [FilePart(f, decode)] == [ImageUrlPart(data)];
  }

  /** Text plus a plain-text document give two parts: the text as written,
      then the labelled file text. */
  lemma TextWithDocument(msg: string, name: string, data: string, decode: string -> Option<string>)
    requires msg != "" && StartsWith(data, "data:text/") && decode(Base64Field(data)).Some?
    ensures Normalize(Some(msg), [FileDesc(name, Some("text/plain"), data)], decode)
      == Ok([TextPart(msg), TextPart("Content of " + name + ":\\n" + decode(Base64Field(data)).value)])
  {
    var f := FileDesc(name, Some("text/plain"), data);
    assert "text/plain"[0] == 't';
    assert !IsMedia("text/plain");
    assert FilePart(f, decode) == TextPart("Content of " + name + ":\\n" + decode(Base64Field(data)).value);
    assert [f][..0] == [];
    assert Normalize(Some(msg), [], decode) == Ok([TextPart(msg)]);
    assert Normalize(Some(msg), [f], decode) == Ok([TextPart(msg)] + [FilePart(f, decode)]);
    assert [TextPart(msg)] + [FilePart(f, decode)] == [TextPart(msg), FilePart(f, decode)];
  }

  //
  // The chat exchange (lines 150-208)
  //

  /** What a step of the session leaves behind: the transcript, the messages
      delivered during the step, the number of `send` calls it made, and the
      message of an exception that escaped it (None when none did). */
  datatype Outcome = Outcome(history: seq<Turn>, delivered: seq<Outbound>, attempts: nat, escaped: Option<string>)

  /** The position, among `count` send calls starting at call number `from`,
      of the first one that throws; `count` when none does. */
  function FirstFailure(failing: iset<nat>, from: nat, count: nat): (k: nat)
    ensures k <= count
    ensures forall j :: from <= j < from + k ==> j !in failing
    ensures k < count ==> from + k in failing
    decreases count
  {
    if count == 0 || from in failing then 0 else 1 + FirstFailure(failing, from + 1, count - 1)
  }

  /** `FirstFailure` is the first failing call: a call number that fails
      with every earlier call succeeding is it. */
  lemma {:induction false} FirstFailureIs(failing: iset<nat>, from: nat, count: nat, k: nat)
    requires k <= count
    requires forall j :: from <= j < from + k ==> j !in failing
    requires k < count ==> from + k in failing
    ensures FirstFailure(failing, from, count) == k
    decreases count
  {
    if count != 0 && from !in failing {
      FirstFailureIs(failing, from + 1, count - 1, k - 1);
    }
  }

  /** The catch block: report the error, then pop the last turn. When the
      report itself throws, the exception escapes before the pop. `attempt`
      is the number of the report's send call, `sent` the calls made before it. */
  function Recover(history: seq<Turn>, delivered: seq<Outbound>, failing: iset<nat>, attempt: nat, sent: nat, reason: string)
    : (r: Outcome)
    requires |history| > 0
    ensures r.attempts == sent + 1
    ensures r.escaped.Some? <==> attempt in failing
    ensures r.escaped.Some? ==> r.escaped == Some(SendErrorText)
    ensures r.history <= history
    ensures |r.history| == if r.escaped.None? then |history| - 1 else |history|
    ensures delivered <= r.delivered
    ensures r.escaped.None? <==> |r.delivered| == |delivered| + 1
    ensures r.escaped.None? ==> r.delivered[|delivered|] == ErrorMsg(StreamErrorPrefix + reason)
  {
    if attempt in failing then Outcome(history, delivered, sent + 1, Some(SendErrorText))
    else Outcome(history[..|history| - 1], delivered + [ErrorMsg(StreamErrorPrefix + reason)], sent + 1, None)
  }

  /** The try block and its catch, from a transcript `h1` that already ends
      with the user turn, on a socket whose next send call is number `a1`,
      by where the first failure happens: at a `stream`, in the backend, at
      the `complete`, or nowhere. */
  function TryBlock(h1: seq<Turn>, reply: BackendReply, failing: iset<nat>, a1: nat): (r: Outcome)
    requires |h1| > 0
    ensures 1 <= r.attempts <= |StreamMessages(reply.parts)| + 2
    ensures r.escaped.Some? <==> a1 + r.attempts - 1 in failing
  {
    var streams := StreamMessages(reply.parts);
    var n := |streams|;
    var k := FirstFailure(failing, a1, n);
    if k < n then
      Recover(h1, streams[..k], failing, a1 + 1 + k, 1 + k, SendErrorText)
    else if reply.failure.Some? then
      Recover(h1, streams, failing, a1 + n, n, reply.failure.value)
    else
      var h2 := h1 + [Turn(Assistant, PlainText(FullResponse(reply.parts)))];
      if a1 + n in failing then Recover(h2, streams, failing, a1 + 1 + n, 1 + n, SendErrorText)
      else Outcome(h2, streams + [Complete(CompleteText)], 1 + n, None)
  }

  /** One exchange for an already normalised user turn, on a socket whose
      next send call is number `a0`: push the user turn, send the `ack`
      (outside the try: its failure escapes), then the try block. */
  function Exchange(h0: seq<Turn>, user: Turn, reply: BackendReply, failing: iset<nat>, a0: nat): (r: Outcome)
    ensures r.escaped.Some? <==> a0 + r.attempts - 1 in failing
  {
    if a0 in failing then Outcome(h0 + [user], [], 1, Some(SendErrorText))
    else
      var t := TryBlock(h0 + [user], reply, failing, a0 + 1);
      Outcome(t.history, [Ack(AckText)] + t.delivered, 1 + t.attempts, t.escaped)
  }

  /** The whole of `handleChat`: normalisation, then the exchange. */
  function ChatTurn(h0: seq<Turn>, userMessage: Option<string>, files: seq<FileDesc>, reply: BackendReply,
                    decode: string -> Option<string>, failing: iset<nat>, a0: nat): Outcome
  {
    match Normalize(userMessage, files, decode)
    case Err(e) => Outcome(h0, [], 0, Some(e))
    case Ok(parts) => Exchange(h0, Turn(User, UserContent(parts)), reply, failing, a0)
  }

  /** The backend request `handleChat` issues, if it gets that far. */
  function ChatRequest(h0: seq<Turn>, model: string, userMessage: Option<string>, files: seq<FileDesc>,
                       decode: string -> Option<string>, failing: iset<nat>, a0: nat): Option<BackendRequest>
  {
    match Normalize(userMessage, files, decode)
    case Err(_) => None
    case Ok(parts) =>
      if a0 in failing then None else Some(BackendRequest(model, h0 + [Turn(User, UserContent(parts))]))
  }

  /** The delivered messages are ordered: `ack` first, then a prefix of the
      stream messages in order, then at most one final `error`, or a
      `complete` after all of the streams. */
  predicate WellOrdered(d: seq<Outbound>, streams: seq<Outbound>) {
    d == [] ||
    (d[0] == Ack(AckText) &&
     var rest := d[1..];
     rest <= streams ||
     (|rest| > 0 && rest[..|rest| - 1] <= streams &&
      (rest[|rest| - 1].ErrorMsg? || (rest[|rest| - 1] == Complete(CompleteText) && rest[..|rest| - 1] == streams))))
  }

  /** What the client reads from `ack`, the streams and `complete` is the
      full response. */
  lemma StreamedReplyIsFullResponse(parts: seq<StreamPart>)
    ensures StreamedText([Ack(AckText)] + StreamMessages(parts) + [Complete(CompleteText)]) == FullResponse(parts)
  {
    StreamedTextIsFullResponse(parts);
    StreamedTextAppend([Ack(AckText)], StreamMessages(parts));
    StreamedTextAppend([Ack(AckText)] + StreamMessages(parts), [Complete(CompleteText)]);
    assert StreamedText([Ack(AckText)]) == "" by {
      assert [Ack(AckText)][..0] == [];
    }
    assert StreamedText([Complete(CompleteText)]) == "" by {
      assert [Complete(CompleteText)][..0] == [];
    }
  }

  /** A fully successful exchange appends the user turn then the assistant
      turn, and sends `ack`, the streams and `complete`; the assistant turn
      holds exactly what was streamed. */
  lemma ExchangeSucceeds(h0: seq<Turn>, user: Turn, reply: BackendReply, failing: iset<nat>, a0: nat)
    requires reply.failure.None?
    requires forall j :: a0 <= j < a0 + |StreamMessages(reply.parts)| + 2 ==> j !in failing
    ensures var r := Exchange(h0, user, reply, failing, a0);
      && r.history == h0 + [user, Turn(Assistant, PlainText(FullResponse(reply.parts)))]
      && r.delivered == [Ack(AckText)] + StreamMessages(reply.parts) + [Complete(CompleteText)]
      && StreamedText(r.delivered) == FullResponse(reply.parts)
      && r.escaped == None
  {
    var n := |StreamMessages(reply.parts)|;
    FirstFailureIs(failing, a0 + 1, n, n);
    StreamedReplyIsFullResponse(reply.parts);
  }

  /** A backend failure on a healthy socket is reported and rolled back: the
      transcript is as before the exchange. */
  lemma ExchangeBackendFailure(h0: seq<Turn>, user: Turn, reply: BackendReply, failing: iset<nat>, a0: nat)
    requires reply.failure.Some?
    requires forall j :: a0 <= j < a0 + |StreamMessages(reply.parts)| + 2 ==> j !in failing
    ensures var r := Exchange(h0, user, reply, failing, a0);
      && r.history == h0
      && r.delivered == [Ack(AckText)] + StreamMessages(reply.parts) + [ErrorMsg(StreamErrorPrefix + reply.failure.value)]
      && r.escaped == None
  {
    var n := |StreamMessages(reply.parts)|;
    FirstFailureIs(failing, a0 + 1, n, n);
    assert (h0 + [user])[..|h0|] == h0;
  }

  /** A stream message whose send throws ends the exchange like a backend
      failure: the streams before it, one `error`, and the user turn popped. */
  lemma ExchangeStreamSendFailure(h0: seq<Turn>, user: Turn, reply: BackendReply, failing: iset<nat>, a0: nat, k: nat)
    requires k < |StreamMessages(reply.parts)|
    requires forall j :: a0 <= j <= a0 + k ==> j !in failing
    requires a0 + 1 + k in failing && a0 + 2 + k !in failing
    ensures var r := Exchange(h0, user, reply, failing, a0);
      && r.history == h0
      && r.delivered == [Ack(AckText)] + StreamMessages(reply.parts)[..k] + [ErrorMsg(StreamErrorPrefix + SendErrorText)]
      && r.escaped == None
  {
    FirstFailureIs(failing, a0 + 1, |StreamMessages(reply.parts)|, k);
    assert (h0 + [user])[..|h0|] == h0;
  }

  /** When only the final `complete` send throws, the pop removes the
      assistant turn and the user turn stays in the transcript. */
  lemma ExchangeCompleteSendFailure(h0: seq<Turn>, user: Turn, reply: BackendReply, failing: iset<nat>, a0: nat)
    requires reply.failure.None?
    requires forall j :: a0 <= j <= a0 + |StreamMessages(reply.parts)| ==> j !in failing
    requires a0 + 1 + |StreamMessages(reply.parts)| in failing
    requires a0 + 2 + |StreamMessages(reply.parts)| !in failing
    ensures var r := Exchange(h0, user, reply, failing, a0);
      && r.history == h0 + [user]
      && r.delivered == [Ack(AckText)] + StreamMessages(reply.parts) + [ErrorMsg(StreamErrorPrefix + SendErrorText)]
      && r.escaped == None
  {
    var n := |StreamMessages(reply.parts)|;
    FirstFailureIs(failing, a0 + 1, n, n);
    var h2 := h0 + [user] + [Turn(Assistant, PlainText(FullResponse(reply.parts)))];
    assert h2[..|h2| - 1] == h0 + [user];
  }

  /** On a socket that already throws on every send, nothing is delivered,
      the exception escapes, and the user turn is left in the transcript. */
  lemma ExchangeOnClosedSocket(h0: seq<Turn>, user: Turn, reply: BackendReply, failing: iset<nat>, a0: nat)
    requires forall j :: a0 <= j ==> j in failing
    ensures var r := Exchange(h0, user, reply, failing, a0);
      r.history == h0 + [user] && r.delivered == [] && r.escaped == Some(SendErrorText)
  {
  }

  /** The try block's possible results: the transcript is `h1` popped, `h1`,
      or `h1` plus the assistant turn; its messages are a prefix of the
      streams, then at most one `error`, or `complete` after all streams. */
  lemma TryBlockOutcomes(h1: seq<Turn>, reply: BackendReply, failing: iset<nat>, a1: nat)
    requires |h1| > 0
    ensures var t := TryBlock(h1, reply, failing, a1);
      var streams := StreamMessages(reply.parts);
      var asst := Turn(Assistant, PlainText(FullResponse(reply.parts)));
      && (t.history == h1[..|h1| - 1] || t.history == h1 || t.history == h1 + [asst])
      && (t.delivered <= streams ||
          (|t.delivered| > 0 && t.delivered[..|t.delivered| - 1] <= streams &&
           (t.delivered[|t.delivered| - 1].ErrorMsg? ||
            (t.delivered[|t.delivered| - 1] == Complete(CompleteText) && t.delivered[..|t.delivered| - 1] == streams))))
      && (t.escaped.Some? ==> t.escaped == Some(SendErrorText) && t.history != h1[..|h1| - 1])
      && (t.history == h1[..|h1| - 1] ==> t.escaped.None? && |t.delivered| > 0 && t.delivered[|t.delivered| - 1].ErrorMsg?)
  {
    var streams := StreamMessages(reply.parts);
    var n := |streams|;
    var k := FirstFailure(failing, a1, n);
    var h2 := h1 + [Turn(Assistant, PlainText(FullResponse(reply.parts)))];
    assert h2[..|h2| - 1] == h1;
    assert |h1[..|h1| - 1]| < |h1|;
    if k < n {
      assert (streams[..k] + [ErrorMsg(StreamErrorPrefix + SendErrorText)])[..k] == streams[..k];
    } else {
      assert (streams + [ErrorMsg(StreamErrorPrefix + SendErrorText)])[..n] == streams;
      assert (streams + [Complete(CompleteText)])[..n] == streams;
      if reply.failure.Some? {
        assert (streams + [ErrorMsg(StreamErrorPrefix + reply.failure.value)])[..n] == streams;
      }
    }
  }

  /** Whatever fails: the transcript gains at most the two turns; `ack` comes
      first, then streams in order, then at most one final `error`, or
      `complete` after all streams; only a failed send escapes (and then
      nothing was popped); the transcript is back to `h0` only when an error
      was reported. */
  lemma ExchangeOutcomes(h0: seq<Turn>, user: Turn, reply: BackendReply, failing: iset<nat>, a0: nat)
    ensures var r := Exchange(h0, user, reply, failing, a0);
      var asst := Turn(Assistant, PlainText(FullResponse(reply.parts)));
      && (r.history == h0 || r.history == h0 + [user] || r.history == h0 + [user, asst])
      && WellOrdered(r.delivered, StreamMessages(reply.parts))
      && (r.escaped.Some? ==> r.escaped == Some(SendErrorText) && r.history != h0)
      && (r.history == h0 ==> r.escaped.None? && |r.delivered| > 0 && r.delivered[|r.delivered| - 1].ErrorMsg?)
  {
    var h1 := h0 + [user];
    assert h1[..|h1| - 1] == h0;
    assert h1 + [Turn(Assistant, PlainText(FullResponse(reply.parts)))] == h0 + [user, Turn(Assistant, PlainText(FullResponse(reply.parts)))];
    if a0 !in failing {
      var t := TryBlock(h1, reply, failing, a0 + 1);
      TryBlockOutcomes(h1, reply, failing, a0 + 1);
      var d := [Ack(AckText)] + t.delivered;
      assert d[1..] == t.delivered;
      if |t.delivered| > 0 {
        assert d[|d| - 1] == t.delivered[|t.delivered| - 1];
      }
    }
  }

  /** Transcripts of user/assistant pairs in request order. */
  ghost predicate Alternating(h: seq<Turn>) {
    |h| % 2 == 0 && forall i :: 0 <= i < |h| ==> h[i].role == (if i % 2 == 0 then User else Assistant)
  }

  /** Appending a user turn and an assistant turn keeps the pairs. */
  lemma AppendPairAlternates(h0: seq<Turn>, user: Turn, asst: Turn)
    requires Alternating(h0) && user.role == User && asst.role == Assistant
    ensures Alternating(h0 + [user, asst])
  {
    var h := h0 + [user, asst];
    forall i | 0 <= i < |h| ensures h[i].role == (if i % 2 == 0 then User else Assistant) {
      if i < |h0| { assert h[i] == h0[i]; }
    }
  }

  /** A successful exchange keeps the transcript a sequence of user/assistant
      pairs and adds exactly one pair: N exchanges after a clear give 2N turns. */
  lemma SuccessfulExchangeAlternates(h0: seq<Turn>, user: Turn, reply: BackendReply, failing: iset<nat>, a0: nat)
    requires Alternating(h0) && user.role == User
    requires reply.failure.None?
    requires forall j :: a0 <= j < a0 + |StreamMessages(reply.parts)| + 2 ==> j !in failing
    ensures Alternating(Exchange(h0, user, reply, failing, a0).history)
    ensures |Exchange(h0, user, reply, failing, a0).history| == |h0| + 2
  {
    ExchangeSucceeds(h0, user, reply, failing, a0);
    AppendPairAlternates(h0, user, Turn(Assistant, PlainText(FullResponse(reply.parts))));
  }

  //
  // Dispatch (lines 61-85) and the message listener (lines 26-36)
  //

  /** The selected model after a message: a `chat` with a truthy `model`
      overwrites it, before anything else happens. */
  function NextModel(model0: string, env: Envelope): (r: string)
    ensures r != model0 ==> env.msgType == "chat" && env.model == Some(r) && r != ""
    ensures env.msgType == "chat" && Truthy(env.model) ==> r == env.model.value
  {
    if env.msgType == "chat" && Truthy(env.model) then env.model.value else model0
  }

  /** A single `ws.send` of `m` on call number `a0`, keeping the transcript `h`. */
  function SendOne(h: seq<Turn>, m: Outbound, failing: iset<nat>, a0: nat): Outcome {
    if a0 in failing then Outcome(h, [], 1, Some(SendErrorText)) else Outcome(h, [m], 1, None)
  }

  /** `handleMessage`: the switch on `type`. */
  function Dispatch(h0: seq<Turn>, env: Envelope, reply: BackendReply, decode: string -> Option<string>,
                    failing: iset<nat>, a0: nat): (r: Outcome)
    ensures env.msgType != "chat" ==> r.attempts == 1 && (r.escaped.None? <==> r.delivered != [])
    ensures env.msgType == "clear" ==> r.history == []
    ensures env.msgType == "clear" && r.escaped.None? ==> r.delivered == [Cleared(ClearedText)]
    ensures env.msgType != "chat" && env.msgType != "clear" ==> r.history == h0
    ensures env.msgType != "chat" && env.msgType != "clear" && r.escaped.None? ==>
      r.delivered == [ErrorMsg(UnknownTypePrefix + env.msgType)]
  {
    if env.msgType == "chat" then ChatTurn(h0, env.content, env.files, reply, decode, failing, a0)
    else if env.msgType == "clear" then SendOne([], Cleared(ClearedText), failing, a0)
    else SendOne(h0, ErrorMsg(UnknownTypePrefix + env.msgType), failing, a0)
  }

  /** The outer catch: an exception that escaped is reported as `Error: …`;
      if that send throws too, the rejection goes unhandled. */
  function Report(o: Outcome, failing: iset<nat>, a0: nat): (r: Outcome)
    ensures o.escaped.None? ==> r == o
    ensures r.history == o.history
    ensures o.delivered <= r.delivered && |r.delivered| <= |o.delivered| + 1
    ensures r.escaped.Some? ==> r.escaped == Some(SendErrorText)
    ensures o.escaped.Some? && r.escaped.None? ==> r.delivered == o.delivered + [ErrorMsg(ListenerErrorPrefix + o.escaped.value)]
  {
    match o.escaped
    case None => o
    case Some(e) =>
      if a0 + o.attempts in failing then Outcome(o.history, o.delivered, o.attempts + 1, Some(SendErrorText))
      else Outcome(o.history, o.delivered + [ErrorMsg(ListenerErrorPrefix + e)], o.attempts + 1, None)
  }

  /** The `message` listener: parse, dispatch, report what escaped. */
  function Listener(h0: seq<Turn>, inbound: Inbound, reply: BackendReply, decode: string -> Option<string>,
                    failing: iset<nat>, a0: nat): (r: Outcome)
    ensures inbound.Malformed? ==> r.history == h0 && |r.delivered| <= 1
    ensures inbound.Parsed? && inbound.env.msgType != "chat" ==> |r.delivered| <= 1
    ensures r.escaped.Some? ==> r.escaped == Some(SendErrorText)
  {
    match inbound
    case Malformed(e) => Report(Outcome(h0, [], 0, Some(e)), failing, a0)
    case Parsed(env) => Report(Dispatch(h0, env, reply, decode, failing, a0), failing, a0)
  }

  /** Any type other than `chat` and `clear` — among them `presence`,
      `video-started` and the `webrtc-*` kinds — gets exactly one error naming
      the type, and nothing else changes. */
  lemma UnknownTypeIsReported(h0: seq<Turn>, model0: string, env: Envelope, reply: BackendReply,
                              decode: string -> Option<string>, failing: iset<nat>, a0: nat)
    requires env.msgType != "chat" && env.msgType != "clear"
    requires a0 !in failing
    ensures var r := Listener(h0, Parsed(env), reply, decode, failing, a0);
      && r.history == h0
      && r.delivered == [ErrorMsg(UnknownTypePrefix + env.msgType)]
      && r.attempts == 1
      && NextModel(model0, env) == model0
  {
  }

  /** `clear` empties the transcript and confirms it. */
  lemma ClearEmptiesHistory(h0: seq<Turn>, env: Envelope, reply: BackendReply,
                            decode: string -> Option<string>, failing: iset<nat>, a0: nat)
    requires env.msgType == "clear" && a0 !in failing
    ensures var r := Listener(h0, Parsed(env), reply, decode, failing, a0);
      r.history == [] && r.delivered == [Cleared(ClearedText)]
  {
  }

  /** After a `clear`, a successful chat leaves a transcript of exactly two
      turns: the user turn and the assistant reply. */
  lemma ClearThenChat(h0: seq<Turn>, clear: Envelope, chat: Envelope, reply: BackendReply,
                      decode: string -> Option<string>, failing: iset<nat>, a0: nat)
    requires clear.msgType == "clear" && chat.msgType == "chat"
    requires Normalize(chat.content, chat.files, decode).Ok?
    requires reply.failure.None?
    requires forall j :: a0 <= j < a0 + |StreamMessages(reply.parts)| + 3 ==> j !in failing
    ensures var r1 := Listener(h0, Parsed(clear), reply, decode, failing, a0);
      var r2 := Listener(r1.history, Parsed(chat), reply, decode, failing, a0 + r1.attempts);
      |r2.history| == 2 && r2.history[0].role == User && r2.history[1].role == Assistant
  {
    var user := Turn(User, UserContent(Normalize(chat.content, chat.files, decode).value));
    ExchangeSucceeds([], user, reply, failing, a0 + 1);
  }

  /** An exception before the user turn is pushed (here: a file whose type is
      not a string) leaves the transcript alone and yields one `Error: …`;
      a model given with the message has already been selected. */
  lemma FileTypeErrorKeepsModel(h0: seq<Turn>, model0: string, env: Envelope, reply: BackendReply,
                                decode: string -> Option<string>, failing: iset<nat>, a0: nat, i: nat)
    requires env.msgType == "chat" && Truthy(env.model)
    requires i < |env.files| && env.files[i].mediaType.None?
    requires a0 !in failing
    ensures var r := Listener(h0, Parsed(env), reply, decode, failing, a0);
      && r.history == h0
      && r.delivered == [ErrorMsg(ListenerErrorPrefix + FileTypeErrorText)]
      && NextModel(model0, env) == env.model.value
  {
    NormalizeParts(env.content, env.files, decode);
  }

  /** A frame that is not JSON yields one `Error: …` and no state change. */
  lemma MalformedIsReported(h0: seq<Turn>, e: string, reply: BackendReply,
                            decode: string -> Option<string>, failing: iset<nat>, a0: nat)
    requires a0 !in failing
    ensures var r := Listener(h0, Malformed(e), reply, decode, failing, a0);
      r.history == h0 && r.delivered == [ErrorMsg(ListenerErrorPrefix + e)] && r.escaped == None
  {
  }

  //
  // The session object
  //

  /** `BuildContent` runs the loop of lines 89-142 and computes `Normalize`. */
  method BuildContent(userMessage: Option<string>, files: seq<FileDesc>, decode: string -> Option<string>)
    returns (r: Result<seq<ContentPart>>)
    ensures r == Normalize(userMessage, files, decode)
  {
    var messageContent: seq<ContentPart> := [];
    if Truthy(userMessage) {
      messageContent := messageContent + [TextPart(userMessage.value)];
    }
    var i := 0;
    assert files[..0] == [];
    assert messageContent == LeadingText(userMessage);
    while i < |files|
      invariant 0 <= i <= |files|
      invariant Normalize(userMessage, files[..i], decode) == Ok(messageContent)
    {
      var file := files[i];
      assert files[..i + 1][..i] == files[..i];
      if file.mediaType.None? {
        NormalizeParts(userMessage, files, decode);
        return Err(FileTypeErrorText);
      }
      var mediaType := file.mediaType.value;
      var part: ContentPart;
      if StartsWith(mediaType, "image/") {
        part := ImageUrlPart(file.data);
      } else if StartsWith(mediaType, "video/") || StartsWith(mediaType, "audio/") {
        if StartsWith(mediaType, "video/") {
          part := TextPart("[Video file attached: " + file.name + "]");
        } else {
          part := TextPart("[Audio file attached: " + file.name + "]");
        }
      } else if StartsWith(file.data, "data:text/") || Includes(file.data, "text/plain") {
        var base64Data := Base64Field(file.data);
        match decode(base64Data)
        case Some(textContent) =>
          part := TextPart("Content of " + file.name + ":\\n" + textContent);
        case None =>
          part := TextPart("[Document attached: " + file.name + "]");
      } else {
        part := TextPart("[Document attached: " + file.name + "]");
      }
      assert part == FilePart(file, decode);
      messageContent := messageContent + [part];
      i := i + 1;
    }
    assert files[..i] == files;
    r := Ok(messageContent);
  }

  class ChatSession {
    /** Open connections by id; written on accept and close, never read. */
    var sessions: map<ConnectionId, Socket>
    var conversationHistory: seq<Turn>
    var currentModel: string

    constructor ()
      ensures sessions == map[] && conversationHistory == [] && currentModel == DefaultModel
    {
      sessions := map[];
      conversationHistory := [];
      currentModel := DefaultModel;
    }

    /** An upgrade request. `upgrade` is the `Upgrade` header, `freshId` the
        value of `crypto.randomUUID()`, `server` the accepted socket. */
    method Fetch(upgrade: Option<string>, freshId: ConnectionId, server: Socket) returns (r: FetchResponse)
      modifies this`sessions, server
      ensures upgrade != Some("websocket") ==>
        && r == UpgradeRequired(426, UpgradeRequiredText)
        && sessions == old(sessions)
        && server.delivered == old(server.delivered) && server.attempts == old(server.attempts)
      ensures upgrade == Some("websocket") ==>
        && sessions == old(sessions)[freshId := server]
        && server.attempts == old(server.attempts) + 1
        && (old(server.attempts) !in server.failing ==>
              r == SwitchingProtocols(101) && server.delivered == old(server.delivered) + [Welcome(WelcomeText, currentModel)])
        && (old(server.attempts) in server.failing ==>
              r == Rejected(SendErrorText) && server.delivered == old(server.delivered))
      ensures freshId !in old(sessions) && upgrade == Some("websocket") ==> |sessions| == |old(sessions)| + 1
    {
      if upgrade.None? || upgrade.value != "websocket" {
        return UpgradeRequired(426, UpgradeRequiredText);
      }
      sessions := sessions[freshId := server];
      var ok := server.Send(Welcome(WelcomeText, currentModel));
      if !ok {
        return Rejected(SendErrorText);
      }
      r := SwitchingProtocols(101);
    }

    /** The `close` and `error` listeners: forget the connection. */
    method Disconnect(id: ConnectionId)
      modifies this`sessions
      ensures sessions == old(sessions) - {id}
      ensures id !in old(sessions) ==> sessions == old(sessions)
      ensures id in old(sessions) ==> |sessions| == |old(sessions)| - 1
    {
      sessions := sessions - {id};
    }

    /** `handleMessage`: the switch on the message type. */
    method HandleMessage(ws: Socket, env: Envelope, reply: BackendReply, decode: string -> Option<string>)
      returns (escaped: Option<string>, request: Option<BackendRequest>)
      modifies this`conversationHistory, this`currentModel, ws
      ensures currentModel == NextModel(old(currentModel), env)
      ensures var r := Dispatch(old(conversationHistory), env, reply, decode, ws.failing, old(ws.attempts));
        && conversationHistory == r.history
        && ws.delivered == old(ws.delivered) + r.delivered
        && ws.attempts == old(ws.attempts) + r.attempts
        && escaped == r.escaped
      ensures request == if env.msgType == "chat"
        then ChatRequest(old(conversationHistory), currentModel, env.content, env.files, decode, ws.failing, old(ws.attempts))
        else None
    {
      request := None;
      if env.msgType == "chat" {
        if Truthy(env.model) {
          currentModel := env.model.value;
        }
        escaped, request := HandleChat(ws, env.content, env.files, reply, decode);
      } else if env.msgType == "clear" {
        conversationHistory := [];
        var ok := ws.Send(Cleared(ClearedText));
        escaped := if ok then None else Some(SendErrorText);
      } else {
        var ok := ws.Send(ErrorMsg(UnknownTypePrefix + env.msgType));
        escaped := if ok then None else Some(SendErrorText);
      }
    }

    /** The `message` listener registered for `server` (lines 26-37). The
        returned `unhandled` is the message of a rejection nobody catches. */
    method OnMessage(server: Socket, inbound: Inbound, reply: BackendReply, decode: string -> Option<string>)
      returns (unhandled: Option<string>, request: Option<BackendRequest>)
      modifies this`conversationHistory, this`currentModel, server
      ensures currentModel == if inbound.Parsed? then NextModel(old(currentModel), inbound.env) else old(currentModel)
      ensures var r := Listener(old(conversationHistory), inbound, reply, decode, server.failing, old(server.attempts));
        && conversationHistory == r.history
        && server.delivered == old(server.delivered) + r.delivered
        && server.attempts == old(server.attempts) + r.attempts
        && unhandled == r.escaped
      ensures request == if inbound.Parsed? && inbound.env.msgType == "chat"
        then ChatRequest(old(conversationHistory), currentModel, inbound.env.content, inbound.env.files, decode,
                         server.failing, old(server.attempts))
        else None
    {
      var escaped: Option<string>;
      request := None;
      match inbound {
        case Malformed(e) =>
          escaped := Some(e);
        case Parsed(env) =>
          escaped, request := HandleMessage(server, env, reply, decode);
      }
      unhandled := None;
      if escaped.Some? {
        var ok := server.Send(ErrorMsg(ListenerErrorPrefix + escaped.value));
        if !ok {
          unhandled := Some(SendErrorText);
        }
      }
    }

    /** `handleChat` (lines 87-209). Returns the message of an exception
        that escaped, and the request made to the backend, if any. */
    method HandleChat(ws: Socket, userMessage: Option<string>, files: seq<FileDesc>, reply: BackendReply,
                      decode: string -> Option<string>)
      returns (escaped: Option<string>, request: Option<BackendRequest>)
      modifies this`conversationHistory, ws
      ensures var r := ChatTurn(old(conversationHistory), userMessage, files, reply, decode, ws.failing, old(ws.attempts));
        && conversationHistory == r.history
        && ws.delivered == old(ws.delivered) + r.delivered
        && ws.attempts == old(ws.attempts) + r.attempts
        && escaped == r.escaped
      ensures request == ChatRequest(old(conversationHistory), currentModel, userMessage, files, decode, ws.failing, old(ws.attempts))
    {
      var built := BuildContent(userMessage, files, decode);
      if built.Err? {
        return Some(built.message), None;
      }
      var message := Turn(User, UserContent(built.value));
      ghost var h0, a0 := conversationHistory, ws.attempts;
      assert ChatTurn(h0, userMessage, files, reply, decode, ws.failing, a0)
          == Exchange(h0, message, reply, ws.failing, a0);
      conversationHistory := conversationHistory + [message];
      var ok := ws.Send(Ack(AckText));
      if !ok {
        return Some(SendErrorText), None;
      }
      request := Some(BackendRequest(currentModel, conversationHistory));
      ghost var d1 := ws.delivered;
      escaped := TryBlockStep(ws, reply);
      ghost var t := TryBlock(h0 + [message], reply, ws.failing, a0 + 1);
      assert Exchange(h0, message, reply, ws.failing, a0)
          == Outcome(t.history, [Ack(AckText)] + t.delivered, 1 + t.attempts, t.escaped);
    }

    /** The try block of `handleChat` and its catch (lines 158-208), once the
        user turn is in the transcript and the `ack` is sent. */
    method TryBlockStep(ws: Socket, reply: BackendReply) returns (escaped: Option<string>)
      requires |conversationHistory| > 0
      modifies this`conversationHistory, ws
      ensures var t := TryBlock(old(conversationHistory), reply, ws.failing, old(ws.attempts));
        && conversationHistory == t.history
        && ws.delivered == old(ws.delivered) + t.delivered
        && ws.attempts == old(ws.attempts) + t.attempts
        && escaped == t.escaped
    {
      var fullResponse, failedAt := ForwardStream(ws, reply.parts);
      var thrown: Option<string>;
      var ok: bool;
      if failedAt.Some? {
        thrown := Some(SendErrorText);
      } else if reply.failure.Some? {
        thrown := reply.failure;
      } else {
        conversationHistory := conversationHistory + [Turn(Assistant, PlainText(fullResponse))];
        ok := ws.Send(Complete(CompleteText));
        thrown := if ok then None else Some(SendErrorText);
      }
      if thrown.Some? {
        ok := ws.Send(ErrorMsg(StreamErrorPrefix + thrown.value));
        if !ok {
          return Some(SendErrorText);
        }
        conversationHistory := conversationHistory[..|conversationHistory| - 1];
      }
      escaped := None;
    }
  }

  /** The message of a part with content is the next stream message after
      those of the parts before it. */
  lemma NextStreamMessage(parts: seq<StreamPart>, i: nat)
    requires i < |parts| && parts[i].content != ""
    ensures var k := |StreamMessages(parts[..i])|;
      && k < |StreamMessages(parts)|
      && StreamMessages(parts)[..k] == StreamMessages(parts[..i])
  {
    StreamMessagesStep(parts, i);
    StreamMessagesPrefix(parts, i + 1);
    var k := |StreamMessages(parts[..i])|;
    assert StreamMessages(parts[..i + 1])[..k] == StreamMessages(parts[..i]);
  }

  /** The `for await` loop (lines 173-185): forward each non-empty increment
      and accumulate `fullResponse`. `failedAt` is the position, among the
      stream messages, of the send that threw. */
  method ForwardStream(ws: Socket, parts: seq<StreamPart>) returns (fullResponse: string, failedAt: Option<nat>)
    modifies ws
    ensures var streams := StreamMessages(parts);
      var k := FirstFailure(ws.failing, old(ws.attempts), |streams|);
      && (k == |streams| ==>
            && failedAt == None
            && ws.delivered == old(ws.delivered) + streams
            && ws.attempts == old(ws.attempts) + |streams|
            && fullResponse == FullResponse(parts))
      && (k < |streams| ==>
            && failedAt == Some(k)
            && ws.delivered == old(ws.delivered) + streams[..k]
            && ws.attempts == old(ws.attempts) + k + 1)
  {
    var streams := StreamMessages(parts);
    var d0, a0 := ws.delivered, ws.attempts;
    fullResponse := "";
    var i := 0;
    while i < |parts|
      invariant 0 <= i <= |parts|
      invariant ws.delivered == d0 + StreamMessages(parts[..i])
      invariant ws.attempts == a0 + |StreamMessages(parts[..i])|
      invariant fullResponse == FullResponse(parts[..i])
      invariant forall j :: a0 <= j < ws.attempts ==> j !in ws.failing
    {
      var part := parts[i];
      StreamMessagesStep(parts, i);
      if part.content != "" {
        fullResponse := fullResponse + part.content;
        var k := |StreamMessages(parts[..i])|;
        NextStreamMessage(parts, i);
        var ok := ws.Send(Stream(part.content, part.done));
        if !ok {
          FirstFailureIs(ws.failing, a0, |streams|, k);
          return fullResponse, Some(k);
        }
      }
      i := i + 1;
    }
    assert parts[..i] == parts;
    FirstFailureIs(ws.failing, a0, |streams|, |streams|);
    failedAt := None;
  }
}

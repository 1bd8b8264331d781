/**
  The client side of the chat-completions endpoint: the shape of requests and
  responses, and `send_message`, which turns a role-tagged history into the
  request's message list and reads the assistant's reply out of the response.

  The POST itself (headers, `raise_for_status`, JSON decoding) is the parameter
  `post`: it maps the request that would be sent to what came back, either a
  decoded body or the text of the exception raised on the way.
 */
module Gateway {
  import opened Wrappers

  datatype Role = System | User | Assistant

  /** A history entry, the record `{"role": ..., "content": ...}`. */
  datatype Message = Message(role: Role, content: string)

  /** One element of a multi-part content list. */
  datatype Part = TextPart(text: string) | ImageUrlPart(url: string)

  /** Outgoing content: a plain string, or a list of parts. */
  datatype Content = Plain(text: string) | Parts(parts: seq<Part>)

  datatype OutMessage = OutMessage(role: Role, content: Content)

  /** A POST to the endpoint: the `Authorization` header and the JSON body `{model, messages}`. */
  datatype Request = Request(authorization: string, model: string, messages: seq<OutMessage>)

  /** `choices[k]["message"]["content"]` of a response body. */
  datatype Choice = Choice(content: string)

  /** A decoded response body; `choices` is `None` when the body has no such key. */
  datatype Envelope = Envelope(choices: Option<seq<Choice>>)

  /** What a POST yields: a decoded body, or `str(e)` of the exception that was raised. */
  datatype HttpOutcome = Received(body: Envelope) | Failed(error: string)

  const KeyRequired := "API key is required."
  const NoResponse := "No response from the model."
  const QuerySeparator := "\n\nUser query: "
  const ImageUrlPrefix := "data:image/jpeg;base64,"

  function Bearer(apiKey: string): string {
    "Bearer " + apiKey
  }

  function ErrorText(error: string): string {
    "Error: " + error
  }

  /** The content of the first choice, when the body has a non-empty `choices` list. */
  function FirstChoice(body: Envelope): Option<string> {
    if body.choices.Some? && |body.choices.value| > 0 then Some(body.choices.value[0].content) else None
  }

  /** The reply `send_message` returns for what its POST yielded. */
  function ChatReply(outcome: HttpOutcome): string {
    match outcome
    case Failed(e) => ErrorText(e)
    case Received(body) =>
      match FirstChoice(body)
      case Some(c) => c
      case None => NoResponse
  }

  /** The text of a rewritten user turn: prefixed by the hybrid prompt when there is one. */
  function RewrittenText(text: string, hybrid: Option<string>): string {
    if Truthy(hybrid) then hybrid.value + QuerySeparator + text else text
  }

  /**
    One outgoing message. `rewrite` says whether `msg` is the one that receives the
    hybrid prompt and the image; only a user message is ever rewritten.
   */
  function FormatAs(msg: Message, rewrite: bool, hybrid: Option<string>, image: Option<string>): OutMessage {
    if msg.role == System then OutMessage(System, Plain(msg.content))
    else
      var target := rewrite && msg.role == User;
      var text := if target then RewrittenText(msg.content, hybrid) else msg.content;
      if Truthy(image) && target then
        OutMessage(msg.role, Parts([TextPart(text), ImageUrlPart(ImageUrlPrefix + image.value)]))
      else
        OutMessage(msg.role, Plain(text))
  }

  /** As the source decides it: a message is rewritten when it is EQUAL to the last one. */
  function FormatMessage(msg: Message, last: Message, hybrid: Option<string>, image: Option<string>): OutMessage {
    FormatAs(msg, msg == last, hybrid, image)
  }

  /** A message that receives the hybrid prompt and the image, when they are given. */
  predicate IsTarget(msg: Message, last: Message) {
    msg == last && msg.role == User
  }

  /** The outgoing message list built from `messages`. */
  function Formatted(messages: seq<Message>, hybrid: Option<string>, image: Option<string>): (out: seq<OutMessage>)
    ensures |out| == |messages|
    ensures forall i :: 0 <= i < |messages| ==> out[i].role == messages[i].role
    ensures forall i :: 0 <= i < |messages| && messages[i].role == System ==> out[i].content == Plain(messages[i].content)
    ensures forall i :: 0 <= i < |messages| && !IsTarget(messages[i], messages[|messages| - 1]) ==>
      out[i].content == Plain(messages[i].content)
    ensures forall i :: 0 <= i < |messages| && IsTarget(messages[i], messages[|messages| - 1]) && !Truthy(image) ==>
      out[i].content == Plain(RewrittenText(messages[i].content, hybrid))
    ensures forall i :: 0 <= i < |messages| && IsTarget(messages[i], messages[|messages| - 1]) && Truthy(image) ==>
      out[i].content == Parts([TextPart(RewrittenText(messages[i].content, hybrid)), ImageUrlPart(ImageUrlPrefix + image.value)])
  {
    seq(|messages|, i requires 0 <= i < |messages| => FormatMessage(messages[i], messages[|messages| - 1], hybrid, image))
  }

  /** The request `send_message` posts, or `None` when the key guard returns first. */
  function ChatRequest(messages: seq<Message>, apiKey: string, model: string, hybrid: Option<string>, image: Option<string>): Option<Request> {
    if apiKey == "" then None else Some(Request(Bearer(apiKey), model, Formatted(messages, hybrid, image)))
  }

  /** The reply to a request that was, or was not, sent. */
  function ReplyFor(sent: Option<Request>, post: Request -> HttpOutcome): string {
    match sent
    case None => KeyRequired
    case Some(req) => ChatReply(post(req))
  }

  /**
    `send_message`: without a key nothing is built and nothing is sent; otherwise
    every message is formatted in order and the reply is read out of the response.
   */
  method SendMessage(messages: seq<Message>, apiKey: string, model: string, hybrid: Option<string>,
                     image: Option<string>, post: Request -> HttpOutcome)
    returns (reply: string, sent: Option<Request>)
    ensures apiKey == "" ==> reply == KeyRequired && sent == None
    ensures apiKey != "" ==> sent.Some? && sent.value.authorization == Bearer(apiKey) && sent.value.model == model
    ensures apiKey != "" ==> reply == ChatReply(post(sent.value))
    ensures sent == ChatRequest(messages, apiKey, model, hybrid, image)
  {
    if apiKey == "" {
      return KeyRequired, None;
    }
    var formatted: seq<OutMessage> := [];
    for i := 0 to |messages|
      invariant |formatted| == i
      invariant forall k :: 0 <= k < i ==> formatted[k] == FormatMessage(messages[k], messages[|messages| - 1], hybrid, image)
    {
      var msg := messages[i];
      var last := messages[|messages| - 1];
      if msg.role == System {
        formatted := formatted + [OutMessage(System, Plain(msg.content))];
      } else {
        var content := msg.content;
        if Truthy(hybrid) && msg == last && msg.role == User {
          content := hybrid.value + QuerySeparator + content;
        }
        if Truthy(image) && msg == last && msg.role == User {
          formatted := formatted + [OutMessage(msg.role, Parts([TextPart(content), ImageUrlPart(ImageUrlPrefix + image.value)]))];
        } else {
          formatted := formatted + [OutMessage(msg.role, Plain(content))];
        }
      }
    }
    assert formatted == Formatted(messages, hybrid, image);
    var req := Request(Bearer(apiKey), model, formatted);
    sent := Some(req);
    reply := ChatReply(post(req));
  }

  /**
    A rule that rewrites only the trailing message: only its position makes a
    message a candidate, whatever the earlier messages are.
   */
  function FormattedTrailingOnly(messages: seq<Message>, hybrid: Option<string>, image: Option<string>): seq<OutMessage> {
    seq(|messages|, i requires 0 <= i < |messages| => FormatAs(messages[i], i == |messages| - 1, hybrid, image))
  }

  /** An earlier user turn equal to the trailing one, which the value comparison also rewrites. */
  predicate HasEarlierTwin(messages: seq<Message>) {
    exists i :: 0 <= i < |messages| - 1 && IsTarget(messages[i], messages[|messages| - 1])
  }

  /**
    Comparing by value and choosing by position agree exactly when nothing would be
    rewritten, or no earlier user turn equals the trailing one.
   */
  lemma ValueEqualityMatchesTrailingOnly(messages: seq<Message>, hybrid: Option<string>, image: Option<string>)
    ensures Formatted(messages, hybrid, image) == FormattedTrailingOnly(messages, hybrid, image)
        <==> !(HasEarlierTwin(messages) && (Truthy(hybrid) || Truthy(image)))
  {
    var f, t := Formatted(messages, hybrid, image), FormattedTrailingOnly(messages, hybrid, image);
    if HasEarlierTwin(messages) && (Truthy(hybrid) || Truthy(image)) {
      var i :| 0 <= i < |messages| - 1 && IsTarget(messages[i], messages[|messages| - 1]);
      assert t[i] == OutMessage(User, Plain(messages[i].content));
      if Truthy(image) {
        assert f[i].content.Parts?;
      } else {
        assert |RewrittenText(messages[i].content, hybrid)| > |messages[i].content|;
        assert f[i] != t[i];
      }
    } else {
      forall i | 0 <= i < |messages| ensures f[i] == t[i] {
        if i < |messages| - 1 && messages[i] == messages[|messages| - 1] {
          assert !IsTarget(messages[i], messages[|messages| - 1]) || !(Truthy(hybrid) || Truthy(image));
        }
      }
    }
  }

  /** With a hybrid prompt, every earlier user turn equal to the trailing one is rewritten too. */
  lemma EarlierTwinIsRewritten(messages: seq<Message>, i: nat, hybrid: string)
    requires i < |messages| - 1 && IsTarget(messages[i], messages[|messages| - 1]) && hybrid != ""
    ensures Formatted(messages, Some(hybrid), None)[i].content == Plain(hybrid + QuerySeparator + messages[i].content)
  {
  }
}

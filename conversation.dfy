/**
  The session's chat history and `on_submit`, which appends the user's turn,
  sends the whole history behind a fresh system prompt, and appends the reply.
 */
module Conversation {
  import opened Wrappers
  import opened Gateway

  /** Synthesised anew for every send; never stored in the history. */
  const SystemPrompt := Message(System, "You are a helpful assistant.")

  /** What is sent for a history whose newest entry is the user's turn. */
  function Outgoing(history: seq<Message>): seq<Message> {
    [SystemPrompt] + history
  }

  /**
    The request for a new user turn starts with the system prompt, carries the
    earlier history unchanged (bar the user turns equal to the new one) and ends
    with the new turn, rewritten with the hybrid prompt and the image.
   */
  lemma NewTurnIsRewritten(history: seq<Message>, message: string, apiKey: string, model: string,
                           hybrid: Option<string>, image: Option<string>)
    requires apiKey != ""
    ensures var sent := ChatRequest(Outgoing(history + [Message(User, message)]), apiKey, model, hybrid, image);
      && sent.Some?
      && |sent.value.messages| == |history| + 2
      && sent.value.messages[0] == OutMessage(System, Plain(SystemPrompt.content))
      && sent.value.messages[|history| + 1].role == User
      && sent.value.messages[|history| + 1].content ==
           (if Truthy(image) then Parts([TextPart(RewrittenText(message, hybrid)), ImageUrlPart(ImageUrlPrefix + image.value)])
            else Plain(RewrittenText(message, hybrid)))
      && forall k :: 0 <= k < |history| && history[k] != Message(User, message) ==>
           sent.value.messages[k + 1] == OutMessage(history[k].role, Plain(history[k].content))
  {
    var m := Outgoing(history + [Message(User, message)]);
    assert m[|history| + 1] == Message(User, message);
    assert forall k :: 0 <= k < |history| ==> m[k + 1] == history[k];
  }

  /** The chat history held in the session state and extended in place. */
  class Chat {
    var history: seq<Message>

    constructor ()
      ensures history == []
    {
      history := [];
    }

    /**
      `on_submit`. Returns the cleared text box, the request that was sent (if
      any), and whether the pending hybrid prompt and image were reset to `None`
      (the handler returns those two slots only when it went ahead).
     */
    method Submit(message: string, apiKey: string, model: string, hybrid: Option<string>,
                  image: Option<string>, post: Request -> HttpOutcome)
      returns (textbox: string, sent: Option<Request>, slotsReset: bool)
      modifies this
      ensures textbox == ""
      ensures message == "" ==> history == old(history) && sent == None && !slotsReset
      ensures message != "" ==> slotsReset
      ensures message != "" ==>
        sent == ChatRequest(Outgoing(old(history) + [Message(User, message)]), apiKey, model, hybrid, image)
      ensures message != "" ==>
        history == old(history) + [Message(User, message), Message(Assistant, ReplyFor(sent, post))]
    {
      if message == "" {
        return "", None, false;
      }
      history := history + [Message(User, message)];
      var reply;
      reply, sent := SendMessage(Outgoing(history), apiKey, model, hybrid, image, post);
      history := history + [Message(Assistant, reply)];
      textbox, slotsReset := "", true;
    }
  }
}

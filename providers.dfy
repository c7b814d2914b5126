/** The two model providers behind their error boundary. The SDK calls are
    not modelled; each SDK client is a `Backend` that logs every request it
    is sent and answers with a reply fixed in advance. */
module Providers {
  import opened Optional
  import opened Text

  datatype Message = Message(role: string, content: string)

  /** What an SDK call sends over the network. */
  datatype Request = Request(model: string, maxTokens: Option<nat>, system: Option<string>,
                             messages: seq<Message>)

  const ClaudeModel := "claude-3-sonnet-20240229"
  const ClaudeMaxTokens := 4096
  const ChatGPTModel := "gpt-4"

  /** `anthropic.messages.create(...)` as the Claude wrapper calls it. */
  function ClaudeRequest(prompt: string, system: string): Request {
    Request(ClaudeModel, Some(ClaudeMaxTokens), Some(system), [Message("user", prompt)])
  }

  /** `openai.ChatCompletion.create(...)` as the ChatGPT wrapper calls it. */
  function ChatGPTRequest(prompt: string): Request {
    Request(ChatGPTModel, None, None, [Message("user", prompt)])
  }

  /** How a Claude call ends: a message, or an exception with its text. */
  datatype ClaudeReply = ClaudeMessage(content: string) | ClaudeRaised(details: string)

  /** How a ChatGPT call ends: a completion with its list of choices, or an
      exception with its text. */
  datatype ChatGPTReply = Completion(choices: seq<string>) | ChatGPTRaised(details: string)

  const ClaudeErrorPrefix := "Error getting Claude response: "
  const ChatGPTErrorPrefix := "Error getting ChatGPT response: "

  /** The text of the `IndexError` that `choices[0]` raises on an empty list. */
  const IndexErrorText := "list index out of range"

  /** An SDK client. `sent` is every request made through it, in order;
      the `n`-th request `q` is answered with `reply(n, q)`. */
  class Backend<R> {
    var sent: seq<Request>
    const reply: (nat, Request) -> R

    constructor (reply: (nat, Request) -> R)
      ensures sent == [] && this.reply == reply
    {
      sent := [];
      this.reply := reply;
    }

    /** One outbound call. */
    method Create(q: Request) returns (res: R)
      modifies this
      ensures sent == old(sent) + [q]
      ensures res == reply(|old(sent)|, q)
    {
      res := reply(|sent|, q);
      sent := sent + [q];
    }
  }

  /** What the Claude wrapper returns for a reply: the message text, or the
      exception text behind the Claude error prefix. Nothing is raised. */
  function ClaudeOutcome(reply: ClaudeReply): (r: string)
    ensures reply.ClaudeMessage? ==> r == reply.content
    ensures reply.ClaudeRaised? ==> StartsWith(r, ClaudeErrorPrefix) && r[|ClaudeErrorPrefix|..] == reply.details
  {
    match reply
    case ClaudeMessage(content) => content
    case ClaudeRaised(details) => ClaudeErrorPrefix + details
  }

  /** What the ChatGPT wrapper returns for a reply: the first choice, or the
      exception text behind the ChatGPT error prefix. An empty list of
      choices raises inside the guarded block and is reported the same way. */
  function ChatGPTOutcome(reply: ChatGPTReply): (r: string)
    ensures reply.Completion? && reply.choices != [] ==> r == reply.choices[0]
    ensures reply.Completion? && reply.choices == [] ==>
              StartsWith(r, ChatGPTErrorPrefix) && r[|ChatGPTErrorPrefix|..] == IndexErrorText
    ensures reply.ChatGPTRaised? ==>
              StartsWith(r, ChatGPTErrorPrefix) && r[|ChatGPTErrorPrefix|..] == reply.details
  {
    match reply
    case Completion(choices) =>
      if choices != [] then choices[0] else ChatGPTErrorPrefix + IndexErrorText
    case ChatGPTRaised(details) => ChatGPTErrorPrefix + details
  }

  /** Reads the exception text back out of an error string with `prefix`. */
  function ErrorDetails(prefix: string, r: string): (d: Option<string>)
    ensures d.Some? <==> StartsWith(r, prefix)
    ensures d.Some? ==> r == prefix + d.value
  {
    if StartsWith(r, prefix) then
      assert r == r[..|prefix|] + r[|prefix|..];
      Some(r[|prefix|..])
    else None
  }

  /** A Claude failure is reported with its details intact, and is never
      read as a ChatGPT failure. */
  lemma ClaudeFailureReported(details: string)
    ensures ErrorDetails(ClaudeErrorPrefix, ClaudeOutcome(ClaudeRaised(details))) == Some(details)
    ensures ErrorDetails(ChatGPTErrorPrefix, ClaudeOutcome(ClaudeRaised(details))) == None
  {
    var r := ClaudeOutcome(ClaudeRaised(details));
    assert r[15] == 'l' && ChatGPTErrorPrefix[15] == 'h';
  }

  /** A ChatGPT failure is reported with its details intact, and is never
      read as a Claude failure. */
  lemma ChatGPTFailureReported(details: string)
    ensures ErrorDetails(ChatGPTErrorPrefix, ChatGPTOutcome(ChatGPTRaised(details))) == Some(details)
    ensures ErrorDetails(ClaudeErrorPrefix, ChatGPTOutcome(ChatGPTRaised(details))) == None
  {
    var r := ChatGPTOutcome(ChatGPTRaised(details));
    assert r[15] == 'h' && ClaudeErrorPrefix[15] == 'l';
  }

  /** The wrapper returns a plain string, so a reply whose own text begins
      with the error prefix cannot be told from a failure. */
  lemma ClaudeOutcomeAmbiguous(details: string)
    ensures ClaudeOutcome(ClaudeMessage(ClaudeErrorPrefix + details)) == ClaudeOutcome(ClaudeRaised(details))
  {
  }

  /** `get_claude_response`: one call to the Claude client, whose failure
      comes back as an error string. */
  method GetClaudeResponse(client: Backend<ClaudeReply>, prompt: string, system: string) returns (r: string)
    modifies client
    ensures client.sent == old(client.sent) + [ClaudeRequest(prompt, system)]
    ensures r == ClaudeOutcome(client.reply(|old(client.sent)|, ClaudeRequest(prompt, system)))
  {
    var reply := client.Create(ClaudeRequest(prompt, system));
    r := ClaudeOutcome(reply);
  }

  /** `get_chatgpt_response`: one call to the ChatGPT client, whose failure
      comes back as an error string. */
  method GetChatGPTResponse(client: Backend<ChatGPTReply>, prompt: string) returns (r: string)
    modifies client
    ensures client.sent == old(client.sent) + [ChatGPTRequest(prompt)]
    ensures r == ChatGPTOutcome(client.reply(|old(client.sent)|, ChatGPTRequest(prompt)))
  {
    var reply := client.Create(ChatGPTRequest(prompt));
    r := ChatGPTOutcome(reply);
  }
}

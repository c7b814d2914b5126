/** Asking each provider whose box is ticked. A provider that is not asked
    is not called at all and has no response (`None`), which is not the
    same as a failure. */
module Dispatcher {
  import opened Optional
  import opened Providers

  method QueryClaude(enabled: bool, client: Backend<ClaudeReply>, prompt: string) returns (r: Option<string>)
    modifies client
    ensures !enabled ==> r == None && client.sent == old(client.sent)
    ensures enabled ==> client.sent == old(client.sent) + [ClaudeRequest(prompt, "")]
    ensures enabled ==> r == Some(ClaudeOutcome(client.reply(|old(client.sent)|, ClaudeRequest(prompt, ""))))
  {
    if enabled {
      var response := GetClaudeResponse(client, prompt, "");
      r := Some(response);
    } else {
      r := None;
    }
  }

  method QueryChatGPT(enabled: bool, client: Backend<ChatGPTReply>, prompt: string) returns (r: Option<string>)
    modifies client
    ensures !enabled ==> r == None && client.sent == old(client.sent)
    ensures enabled ==> client.sent == old(client.sent) + [ChatGPTRequest(prompt)]
    ensures enabled ==> r == Some(ChatGPTOutcome(client.reply(|old(client.sent)|, ChatGPTRequest(prompt))))
  {
    if enabled {
      var response := GetChatGPTResponse(client, prompt);
      r := Some(response);
    } else {
      r := None;
    }
  }
}

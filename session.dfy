/** One browser session of the interface: its chat history, the
    `conversations` directory it saves into, and the two provider clients.
    `Submit` is what pressing the submit button does, up to the display. */
module Session {
  import opened Optional
  import Timestamp
  import Composer
  import opened Providers
  import Dispatcher
  import opened Recorder

  /** What the four check boxes say. */
  datatype Options = Options(getClaude: bool, getChatGPT: bool,
                             includeEquations: bool, includeProgress: bool)

  /** An entry of the chat history. Unlike the saved record it has no timestamp. */
  datatype HistoryEntry = HistoryEntry(prompt: string, claude: Option<string>, chatgpt: Option<string>)

  /** The history entry that carries the same exchange as a saved record. */
  function EntryOf(c: Conversation): HistoryEntry {
    HistoryEntry(c.prompt, c.claudeResponse, c.chatgptResponse)
  }

  /** How the file system treats the next write. */
  datatype Disk = Writable | Failing(details: string)

  /** An exception that leaves the submit handler. */
  datatype Fault = KeyError(key: string) | WriteError(details: string)

  /** What a press of the submit button comes to. */
  datatype Submission = Ignored | Answered(claude: Option<string>, chatgpt: Option<string>) | Raised(fault: Fault)

  class Session {
    var chatHistory: seq<HistoryEntry>
    var conversations: map<string, Conversation>
    const claude: Backend<ClaudeReply>
    const chatgpt: Backend<ChatGPTReply>

    /** Only submissions with a prompt reach the history. */
    ghost predicate Valid()
      reads this
    {
      forall i :: 0 <= i < |chatHistory| ==> chatHistory[i].prompt != ""
    }

    /** A new session starts with an empty history; the directory may
        already hold the files of earlier sessions. */
    constructor (existing: map<string, Conversation>, claude: Backend<ClaudeReply>, chatgpt: Backend<ChatGPTReply>)
      ensures Valid()
      ensures chatHistory == [] && conversations == existing
      ensures this.claude == claude && this.chatgpt == chatgpt
    {
      chatHistory := [];
      conversations := existing;
      this.claude := claude;
      this.chatgpt := chatgpt;
    }

    /** `save_conversation`: writes the record into the file named after
        the second `now`, or raises when the file system refuses. */
    method SaveConversation(prompt: string, claudeResponse: Option<string>, chatgptResponse: Option<string>,
                            now: Timestamp.Stamp, disk: Disk) returns (ok: bool)
      requires Timestamp.Valid(now)
      modifies this`conversations
      ensures ok == disk.Writable?
      ensures ok ==> conversations == Save(old(conversations), Timestamp.Format(now), prompt,
                                           claudeResponse, chatgptResponse)
      ensures !ok ==> conversations == old(conversations)
    {
      var timestamp := Timestamp.Format(now);
      if disk.Writable? {
        conversations := Save(conversations, timestamp, prompt, claudeResponse, chatgptResponse);
        ok := true;
      } else {
        ok := false;
      }
    }

    /** The tail of the submit handler: the exchange is saved, and only
        once the save succeeded is it added to the history. */
    method Record(prompt: string, claudeResponse: Option<string>, chatgptResponse: Option<string>,
                  now: Timestamp.Stamp, disk: Disk) returns (r: Submission)
      requires Valid() && Timestamp.Valid(now) && prompt != ""
      modifies this
      ensures Valid()
      ensures disk.Writable? ==>
                && r == Answered(claudeResponse, chatgptResponse)
                && conversations == Save(old(conversations), Timestamp.Format(now), prompt,
                                         claudeResponse, chatgptResponse)
                && chatHistory == old(chatHistory) + [HistoryEntry(prompt, claudeResponse, chatgptResponse)]
                && EntryOf(conversations[FileName(Timestamp.Format(now))]) == chatHistory[|chatHistory| - 1]
      ensures disk.Failing? ==>
                r == Raised(WriteError(disk.details)) &&
                conversations == old(conversations) && chatHistory == old(chatHistory)
    {
      var saved := SaveConversation(prompt, claudeResponse, chatgptResponse, now, disk);
      if !saved {
        return Raised(WriteError(disk.details));
      }
      chatHistory := chatHistory + [HistoryEntry(prompt, claudeResponse, chatgptResponse)];
      r := Answered(claudeResponse, chatgptResponse);
    }

    /** The submit handler: an empty prompt does nothing; otherwise the
        prompt is composed (a missing configuration key raises before any
        provider is asked), the ticked providers are asked with the composed
        prompt, and the exchange, with the raw prompt, is recorded. */
    method Submit(prompt: string, options: Options, config: map<string, string>,
                  now: Timestamp.Stamp, disk: Disk) returns (r: Submission)
      requires Valid() && Timestamp.Valid(now)
      modifies this, claude, chatgpt
      ensures Valid()
      ensures prompt == "" ==>
                r == Ignored && chatHistory == old(chatHistory) && conversations == old(conversations) &&
                claude.sent == old(claude.sent) && chatgpt.sent == old(chatgpt.sent)
      ensures prompt != "" ==>
                var built := Composer.BuildPrompt(prompt, config, options.includeEquations, options.includeProgress);
                built.MissingKey? ==>
                  r == Raised(KeyError(built.key)) &&
                  chatHistory == old(chatHistory) && conversations == old(conversations) &&
                  claude.sent == old(claude.sent) && chatgpt.sent == old(chatgpt.sent)
      ensures prompt != "" ==>
                var built := Composer.BuildPrompt(prompt, config, options.includeEquations, options.includeProgress);
                built.Composed? ==>
                  var c := if options.getClaude
                           then Some(ClaudeOutcome(claude.reply(|old(claude.sent)|, ClaudeRequest(built.text, ""))))
                           else None;
                  var g := if options.getChatGPT
                           then Some(ChatGPTOutcome(chatgpt.reply(|old(chatgpt.sent)|, ChatGPTRequest(built.text))))
                           else None;
                  && claude.sent == old(claude.sent) + (if options.getClaude then [ClaudeRequest(built.text, "")] else [])
                  && chatgpt.sent == old(chatgpt.sent) + (if options.getChatGPT then [ChatGPTRequest(built.text)] else [])
                  && (disk.Writable? ==>
                        && r == Answered(c, g)
                        && conversations == Save(old(conversations), Timestamp.Format(now), prompt, c, g)
                        && chatHistory == old(chatHistory) + [HistoryEntry(prompt, c, g)])
                  && (disk.Failing? ==>
                        && r == Raised(WriteError(disk.details))
                        && conversations == old(conversations)
                        && chatHistory == old(chatHistory))
    {
      if prompt == "" {
        return Ignored;
      }
      var built := Composer.BuildPrompt(prompt, config, options.includeEquations, options.includeProgress);
      if built.MissingKey? {
        return Raised(KeyError(built.key));
      }
      var fullPrompt := built.text;
      var claudeResponse := Dispatcher.QueryClaude(options.getClaude, claude, fullPrompt);
      var chatgptResponse := Dispatcher.QueryChatGPT(options.getChatGPT, chatgpt, fullPrompt);
      r := Record(prompt, claudeResponse, chatgptResponse, now, disk);
    }
  }
}

# Unity Project Team Interface — request path, in Dafny

This project models what happens when a user presses **Submit** in the
Streamlit front-end `unity_interface.py`. That front-end sends one prompt to
two large-language-model providers, Claude (Anthropic) and ChatGPT (OpenAI),
and records the exchange. The model covers five steps:

1. **Prompt composition.** The effective prompt is the raw prompt. The
   "Unity equations" block is put in front of it, then the "project
   progress" block is put in front of that. Each block is used only if its
   box is ticked, and its text is read from the configuration.
2. **Dispatch.** Each ticked provider is asked once. An unticked provider
   is never called and has no response (`None`).
3. **The provider error boundary.** An exception from an SDK call becomes
   an ordinary string that starts with `Error getting Claude response: ` or
   `Error getting ChatGPT response: `.
4. **Saving.** The raw prompt, the two responses and a `YYYY-MM-DD HH:MM:SS`
   timestamp are written to `conversations/conv_<timestamp with '_' for ' '>.json`.
5. **Session history.** After the save succeeds, the exchange is appended to
   the session's chat history.

Modules:

- `Text`: string prefixes and suffixes, and Python's ordering of `str` values.
- `Timestamp`: a clock reading at second resolution and its `strftime` rendering.
- `Composer`: prompt composition, including the `KeyError` for a missing configuration key.
- `Providers`: request shapes, the SDK clients as `Backend` objects, and the error strings.
- `Dispatcher`: asking a provider only when its box is ticked.
- `Recorder`: file names, and the `conversations` directory as a map from file name to record.
- `Session`: a class holding the chat history, the directory and the two clients, with `Submit`.

The SDK clients are modelled as `Backend` objects. Each one logs every
request it is sent (`sent`) and answers the `n`-th request `q` with a reply
fixed in advance (`reply(n, q)`). "A provider is not called" is therefore
stated as "its log is unchanged". A reply is either a result or the text of
an exception. A ChatGPT result is its list of choices, so the `IndexError`
that `choices[0]` raises on an empty list is modelled too. It is caught by
the same `except` clause.

The clock, the configuration file and the file system are parameters:

- `now`: the time of the save.
- `config`: a map from key to string.
- `disk`: whether the write succeeds (`Writable`) or raises (`Failing`).

The model follows the code as written:

- Provider outcomes are plain strings: a reply's text, or an error string.
  `Providers.ClaudeOutcomeAmbiguous` shows that a reply whose text begins
  with the error prefix cannot be told from a failure.
- Chat-history entries have keys `prompt`, `claude` and `chatgpt` and carry
  no timestamp. The saved record has keys `timestamp`, `prompt`,
  `claude_response` and `chatgpt_response`.
- A missing `UNITY_EQUATIONS` or `PROJECT_STATUS` key is not detected at
  startup. It raises `KeyError` when a submission selects that block.
  `UNITY_EQUATIONS` is read first.

## Model

| member | source | states |
|---|---|---|
| Composer.ComposePrompt | unity_interface.py:105-109 | the effective prompt is the selected context blocks, progress outermost then equations, each as `Context: <label>\n\n<text>\n\n`, followed by the raw prompt; the raw prompt is always a suffix; with no block selected the prompt is unchanged |
| Composer.EquationsStep | unity_interface.py:106-107 | the first step puts the equations block, if selected, in front of the raw prompt |
| Composer.ProgressStep | unity_interface.py:108-109 | the second step puts the progress block, if selected, in front of what the first step built |
| Composer.EquationsOnly | unity_interface.py:106-107 | with only equations selected the prompt is exactly `"Context: Unity Project Equations\n\n" + equations + "\n\n" + prompt` |
| Composer.ProgressOutermost | unity_interface.py:105-109 | with both blocks selected the progress block comes first and the equations-only prompt follows it unchanged |
| Composer.BuildPrompt | unity_interface.py:105-109 | a selected block whose configuration key is missing raises `KeyError` for that key, the equations key winning when both are missing; an unselected block's key is never needed; otherwise the composed prompt ends with the raw prompt and has the preamble of selected blocks |
| Providers.Backend.Create | unity_interface.py:37-53 | one SDK call (`anthropic.messages.create` at lines 37-42, `openai.ChatCompletion.create` at lines 50-53) appends exactly its request to the client's log and returns that client's reply to it |
| Providers.ClaudeOutcome | unity_interface.py:34-45 | a Claude message yields its text; an exception yields `Error getting Claude response: ` followed by the exception text |
| Providers.ChatGPTOutcome | unity_interface.py:47-56 | a completion yields its first choice; an empty choice list or an exception yields `Error getting ChatGPT response: ` followed by the exception text (`list index out of range` for the empty list) |
| Providers.ClaudeFailureReported | unity_interface.py:44-45 | a Claude failure string gives back the exception text under the Claude prefix and is never read as a ChatGPT failure |
| Providers.ChatGPTFailureReported | unity_interface.py:55-56 | a ChatGPT failure string gives back the exception text under the ChatGPT prefix and is never read as a Claude failure |
| Providers.ClaudeOutcomeAmbiguous | unity_interface.py:43-45 | a message whose text starts with the error prefix yields the same string as a failure |
| Providers.GetClaudeResponse | unity_interface.py:34-45 | exactly one request is sent: model `claude-3-sonnet-20240229`, 4096 tokens, the given system prompt, the prompt as the user message; the result is the wrapped reply and nothing is raised |
| Providers.GetChatGPTResponse | unity_interface.py:47-56 | exactly one request is sent: model `gpt-4`, the prompt as the user message; the result is the wrapped reply and nothing is raised |
| Dispatcher.QueryClaude | unity_interface.py:112 | an unticked Claude yields `None` and sends nothing; a ticked one sends one request with the composed prompt and an empty system prompt, and yields its outcome string |
| Dispatcher.QueryChatGPT | unity_interface.py:113 | an unticked ChatGPT yields `None` and sends nothing; a ticked one sends one request with the composed prompt and yields its outcome string |
| Timestamp.Format | unity_interface.py:60 | the rendering has nineteen characters with `-` at 4 and 7, `:` at 13 and 16, and its only space at 10 |
| Timestamp.LayoutCompare | unity_interface.py:60 | two renderings are equal exactly when the readings are, and compare as strings exactly as the readings compare field by field |
| Recorder.ReplaceSpaces | unity_interface.py:69 | each space becomes `_` and every other character and the length are kept |
| Recorder.FileName | unity_interface.py:69 | the file name starts with `conversations/conv_`, ends with `.json`, contains no space, and is 24 characters longer than the timestamp |
| Recorder.StemOfFormat | unity_interface.py:60-69 | the file name's stem is the rendered time with `_` between date and time |
| Recorder.FileNameCompare | unity_interface.py:60-69 | two saves target the same file exactly when the clock gave the same reading, and file names sort in the order of the readings |
| Recorder.Save | unity_interface.py:61-71 | after a save the directory holds the record under its file name, replacing any earlier file of that name, and every other file is unchanged |
| Recorder.SameSecondOverwrites | unity_interface.py:69-71 | of two saves with the same clock reading only the later record remains |
| Recorder.DifferentSecondsKept | unity_interface.py:69-71 | saves with different clock readings both remain, each under its own name |
| Recorder.SaveKeepsWellNamed | unity_interface.py:61-71 | if every file is named after the timestamp it holds, this stays true after a save |
| Session.Session.constructor | unity_interface.py:15-17 | a session starts with an empty chat history |
| Session.Session.SaveConversation | unity_interface.py:58-71 | a successful write stores the record (raw prompt, both responses, rendered time) under the time's file name; a failing write leaves the directory as it was and reports the failure |
| Session.Session.Record | unity_interface.py:116-135 | the history gains exactly one entry, last and with earlier entries unchanged, only when the save succeeded, and that entry matches the file just written; a failed save changes neither |
| Session.Session.Submit | unity_interface.py:102-135 | an empty prompt changes nothing; a missing key raises before any provider is called; otherwise each ticked provider gets exactly one request with the composed prompt, an unticked one none, and the saved record and the history entry hold the raw prompt and the two outcomes (`None` for unticked providers) |

## Left out

- Streamlit page setup, widgets, columns, expanders and the rendering of responses and history (unity_interface.py:9-13, 82-100, 118-128, 137-150): user interface. `Submit` returns the two responses that would be shown.
- `load_config` and `setup_clients` (unity_interface.py:19-32): file reading and SDK client construction. The configuration is a `map<string, string>` parameter. API keys are not modelled, and neither are configuration values that are not strings.
- The Anthropic and OpenAI network calls: each `Backend` answers from a reply function fixed when it is built.
- Providers.ClaudeOutcome: treats `message.content` (unity_interface.py:43) as the reply text. The Anthropic SDK returns a list of content-block objects there.
- Session.Session.Submit: its successful-save case is weaker than the source's behaviour when Claude is ticked (the default, line 93) and answers. The content blocks returned at line 43 reach `json.dump` at line 71, which cannot serialise them and raises `TypeError` after `open(..., 'w')` has already truncated the file. `save_conversation` then raises, no response is shown and nothing is appended to the history (lines 118-135). The model treats that reply as text, so it records and appends it; only when Claude is unticked, or fails and its outcome is an error string, does the modelled success case match the source.
- `datetime.now()`: the time is the parameter `now`. It is naive local time, which is not monotone: when daylight-saving time ends an hour repeats, so two saves an hour apart can get the same reading (and the same file name), and across such a change file names stop sorting in the order the saves happened. The lemmas speak of clock readings only. Years below 1000 are excluded, because `%Y` does not pad them to four digits.
- `json.dump`'s byte layout and `os.makedirs`: the directory is a map from file name to record, and creating it is not modelled.
- Session.Session.SaveConversation: a failing write leaves the directory unchanged. A file that was opened and then only partly written before `json.dump` raised is not modelled.
- `main.js`: a three.js rendering loop with floating-point rotation, unrelated to the request path.

# NeuroPrime chat client — a Dafny model of its request and configuration logic

NeuroPrime is a desktop chat front end for the OpenRouter chat-completions API.
This project models the logic in `app.py` that shapes requests, parses responses and
maintains the configuration. The Gradio interface around that logic is not modelled.

- **Message formatting** (`send_message`). A role-tagged history becomes the request's
  message list. User turns equal to the last message receive the pending hybrid prompt,
  the pending image, or both.
- **Reasoning parsing** (`get_reasoning_approach`). The model's answer is split on the
  marker `Hybrid prompt prefix to add:`. The stripped second section becomes the hybrid
  prompt.
- **Configuration** (`load_config`, `save_config`). The API key is encrypted at rest. A
  missing or empty model list becomes the two default models. A key that does not decrypt
  becomes `""`. An unreadable file gives the default configuration.
- **Model list and key handlers** (`add_model`, `remove_model`, `save_api_key`). These
  change the global configuration and save it at once.
- **Submit handler** (`on_submit`). It appends the user's turn, sends the whole history
  behind a fresh system prompt, and appends the reply.

How the code is modelled:

- The network is the parameter `post: Request -> HttpOutcome`. It maps the request that
  would be sent to either a decoded response body or the text of the exception raised.
- `send_message` returns the request it built, so "no key: nothing built, nothing sent"
  can be stated.
- The installation's Fernet key is a `Cipher`: encryption plus a decryption that may fail.
  Where a proof needs decryption to undo encryption, that is a `requires`.
- `config.json` is a `Stored` value: absent, unreadable, or a document.

Modules:

- `Wrappers`: `Option` and Python truthiness.
- `Text`: Python's `str.strip`, `find`, `split` and `join`.
- `Gateway`: request and response shapes, and `send_message`.
- `Reasoning`: `get_reasoning_approach`.
- `ConfigStore`: load and save.
- `Settings`: the global configuration as the class `App`, with its handlers.
- `Conversation`: the chat history as the class `Chat`, with `on_submit`.

In these places the code does something other than the obvious reading of its purpose, and the model follows the code:

- **Which turns are rewritten.** The code compares messages by value
  (`msg == messages[-1]`), so every user turn equal to the last one is rewritten, not only
  the trailing one. `Gateway.ValueEqualityMatchesTrailingOnly` says exactly when this
  differs from a rule that rewrites only the trailing message.
  `Gateway.EarlierTwinIsRewritten` states that every earlier user turn equal to the last one
  is rewritten too.
- **How much text is the hybrid prompt.** It is `sections[1].strip()`: only the text up to
  a second marker, not everything after the first marker. `Reasoning.HybridPromptIsNextSection`
  states this.
- **Whitespace-only messages.** The submit guard is `not message`, so only `""` is
  rejected. A whitespace-only message is sent.
- **Return value on an empty message.** `on_submit` then returns only two values and does
  not reset the hybrid-prompt and image slots. `Conversation.Chat.Submit` reports this as
  `slotsReset == false`.
- **Result of saving.** `save_config` returns `True` or raises; it never returns `False`.

## Model

| member | source | states |
|---|---|---|
| `Text.StripStart` | app.py:124 | the result is the longest suffix of the input that does not start with Python white space; everything cut off is white space |
| `Text.StripEnd` | app.py:124 | the result is the longest prefix of the input that does not end with Python white space; everything cut off is white space |
| `Text.Strip` | app.py:124 | `str.strip()`: the result is a slice of the input with only white space cut from both ends, and it neither starts nor ends with white space |
| `Text.StripIdempotent` | app.py:124 | stripping twice gives the same as stripping once |
| `Text.FindFrom` | app.py:122 | the leftmost occurrence at or after a start index: an occurrence with none before it, or `None` exactly when there is no occurrence |
| `Text.Split` | app.py:122-123 | `str.split(sep)` gives at least one piece, and more than one exactly when the separator occurs |
| `Text.SplitJoin` | app.py:122 | joining the pieces of a split with the separator gives back the original text |
| `Text.SplitPiecesLackSeparator` | app.py:122 | no piece of a split contains the separator |
| `Text.StripKeepsAbsence` | app.py:124 | stripping a text that lacks a pattern cannot make the pattern appear |
| `Gateway.Formatted` | app.py:140-157 | one outgoing message per history message, in order and with the same role. System messages and non-target messages keep their content as plain text. A user message equal to the last one gets the hybrid-prefixed text. With an image it becomes the two-part list [text, `data:image/jpeg;base64,` + data] |
| `Gateway.SendMessage` | app.py:133-172 | an empty key returns `"API key is required."` and sends nothing. Otherwise the loop sends exactly the `Formatted` list with the bearer header and model. The reply is `ChatReply` of what came back: the first choice's content, `"No response from the model."`, or `"Error: " + text` |
| `Gateway.ValueEqualityMatchesTrailingOnly` | app.py:146-148 | rewriting by value equality gives the same list as a rule that rewrites only the trailing message if and only if no earlier user turn equals the last one, or there is neither a truthy hybrid prompt nor a truthy image |
| `Gateway.EarlierTwinIsRewritten` | app.py:146-147 | for every history and every truthy hybrid prompt, each earlier user turn identical to the trailing one also receives the hybrid prompt |
| `Reasoning.ReasoningRequest` | app.py:87-114 | a single user message whose text is the fixed head, then the query, then the fixed instructions (ending with the `4. Hybrid prompt prefix to add:` line), sent with the bearer header and the model |
| `Reasoning.HybridPrompt` | app.py:122-127 | there is a hybrid prompt exactly when the marker occurs in the answer |
| `Reasoning.UpToMarker` | app.py:122-124 | the text up to the next marker does not contain the marker |
| `Reasoning.HybridPromptIsNextSection` | app.py:122-125 | the hybrid prompt is the stripped text between the first marker and the next marker or the end |
| `Reasoning.HybridPromptIsClean` | app.py:122-125 | the hybrid prompt never contains the marker and is already stripped |
| `Reasoning.GetReasoningApproach` | app.py:84-131 | no key: (`"API key is required."`, None) and no request. A failed POST: (`"Error: " + text`, None). Missing or empty `choices`: (`"Failed to get reasoning approach."`, None). Otherwise the full content, with a hybrid prompt exactly when the marker occurs |
| `ConfigStore.Load` | app.py:55-70 | the result always has a non-empty model list. No readable file gives the default config. Missing or empty models become the defaults. A truthy key is decrypted, or becomes `""` when decryption fails. Other entries are kept |
| `ConfigStore.Save` | app.py:72-79 | the written copy encrypts a truthy key only and keeps the models and the other entries |
| `ConfigStore.LoadSave` | app.py:55-79 | when decryption undoes encryption, loading a saved config with models gives back exactly that config |
| `ConfigStore.LoadIsStable` | app.py:55-79 | saving a loaded config and loading it again changes nothing |
| `Settings.IndexOf` | app.py:199 | the first index at which the name occurs |
| `Settings.RemoveFirst` | app.py:199 | `list.remove` drops exactly the first occurrence and keeps the order of the rest; an absent name leaves the list unchanged |
| `Settings.RemoveFirstCount` | app.py:199 | removing a present name shortens the list by one and takes exactly one copy out of its multiset |
| `Settings.RemoveKeepsNoDuplicates` | app.py:196-201 | removing from a duplicate-free list keeps it duplicate-free and leaves no copy of the name |
| `Settings.AppendKeepsNoDuplicates` | app.py:187-188 | appending an absent name keeps a list duplicate-free |
| `Settings.ApiKeyStatus` | app.py:183 | `"API key saved successfully!"` exactly when the key is non-empty and the save succeeded, otherwise `"API key cleared."` |
| `Settings.App.constructor` | app.py:81 | the global config is the loaded file, and the invariant holds: non-empty models, and the file loads back to the config |
| `Settings.App.SaveConfig` | app.py:72-79 | the file gets the encrypted copy, the in-memory config keeps its plaintext key, and the file loads back to it |
| `Settings.App.SaveApiKey` | app.py:179-183 | the key is stored in the config and saved; the status is the one `ApiKeyStatus` gives for a successful save |
| `Settings.App.AddModel` | app.py:185-194 | a non-empty absent name is appended, saved and selected, with "Model … added!". A present name changes nothing and reports "already exists". Otherwise "Please enter a valid model name.". The list is never shortened, grows by at most one and stays duplicate-free |
| `Settings.App.RemoveModel` | app.py:196-205 | a present name in a list of more than one is removed, the new first model is selected and the change saved. A list of one is never changed ("Cannot remove the last model."). An absent name changes nothing ("not found"). The list stays non-empty and duplicate-free |
| `Conversation.NewTurnIsRewritten` | app.py:222-225 | the request for a new turn starts with the system prompt, ends with the new user turn rewritten by the hybrid prompt and image, and passes other differing history entries through as plain text |
| `Conversation.Chat.constructor` | app.py:371 | the session history starts empty |
| `Conversation.Chat.Submit` | app.py:219-227 | an empty message leaves the history unchanged and sends nothing. Otherwise the history grows by exactly the user turn then the assistant's reply, the request is built from the system prompt followed by the history with the new turn, and both pending slots are reset |

## Left out

- Fernet key creation, encryption and decryption (app.py:34-52) are foreign library and
  file calls. They are the abstract `Cipher`. It is one fixed pair of functions per
  installation, so the model does not capture that Fernet tokens differ from one
  encryption to the next.
- Re-reading the key file on every call (app.py:45, 50) is left out. A key file that
  changes while the program runs is not modelled.
- The HTTP POSTs, `raise_for_status` and JSON decoding (app.py:116-119, 162-166) are
  network I/O. They are the `post` parameter, whose failure text stands for `str(e)`.
- A first choice without `message` or `content` raises a `KeyError` inside the `try` of
  both calls. It is folded into a failed POST, because the exception's text is not modelled.
- A first choice whose `content` is null is treated differently by the two calls.
  `get_reasoning_approach` raises at `result.split(...)` (app.py:122), and the model folds
  that into a failed POST. `send_message` raises nothing and returns `None` (app.py:168),
  and `on_submit` then appends an assistant turn whose content is `None` (app.py:226). The
  model has no null content, so a null reply from `send_message` is not modelled:
  `Choice.content` is always a string.
- Reading and writing `config.json` and creating directories (app.py:21-30, 57-59, 76-78)
  are file I/O. A JSON value that is not a dictionary counts as unreadable.
- `Settings.App.SaveConfig`: does not model a failing write. The source then raises
  instead of returning, and the model always succeeds.
- `Settings.App.constructor`: requires that the cipher's decryption undoes its encryption.
  That is a property of Fernet that the source relies on without checking. It is what keeps
  the invariant "the file loads back to the in-memory config".
- Keys and model names are modelled as strings only. A `None` dropdown value or a
  non-string JSON entry is not modelled.
- `encode_image`, `upload_image` and `process_image` (app.py:174-176, 211-217, 443-446)
  are base64 and PIL library calls on binary data. The image is the already-encoded string.
- `get_reasoning` (app.py:207-209) returns what `get_reasoning_approach` returns, so its
  behaviour is that of `Reasoning.GetReasoningApproach`. `format_chat_history`
  (app.py:229-230) returns its input unchanged.
- The Gradio widgets, event wiring and CSS (app.py:233-478) are UI code. A dropdown update
  is modelled as its choices and its selected value, where `None` means no value is set.
- Logging, bundle detection, the splash screen and browser launch (app.py:481-589) are
  environment and subprocess code.
- `add_model` appending to the shared `DEFAULT_MODELS` list object (app.py:66, 70, 188) is
  a Python aliasing effect. The model keeps the configuration's list as a value.
- `resources/render_svg.py` and `resources/generate_background.py` are headless-browser
  screenshot scripts with no logic to verify.

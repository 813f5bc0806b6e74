# WhatsApp personal assistant: reply extraction, provider resolution, sub-agent dispatch

This project models the decision logic of a personal assistant that answers
WhatsApp messages through a language-model agent, and proves what that logic
promises:

- **Response extraction** (`App.ExtractText`). It reads a plain reply out of
  whatever the agent returned. Python's duck-typed values become the tagged
  union `Values.Value`: `Str`, `List`, `Dict` with string keys, `Obj` with an
  optional `content` attribute, and `Other` for None, numbers and booleans,
  which carries its truthiness. The result is an `Option<Value>`, not an
  optional string, because a message object's `content` attribute is
  returned whatever its type.
- **Reply fallback and destination normalisation** (`App.Reply`,
  `Channel.Normalize`, `App.ProcessMessage`). A falsy reply is replaced by a
  fixed apology. The destination gets the `whatsapp:` prefix both in the
  app and again in the channel, which is harmless because normalising is
  idempotent. `App.ProcessMessage` takes the agent's answer, or the
  exception its call raised, and Twilio's `messages.create` as parameters.
  It gives what the background task ends with: the send result, the
  agent's exception, the missing-sender error or Twilio's exception.
- **Provider resolution** (`Providers`). `provider/model` is split at the
  first `/`. The provider selects the Google, OpenAI or Groq backend, or the
  "unsupported provider" error. For Google only, GEMINI_API_KEY is copied
  into GOOGLE_API_KEY, and only when GEMINI_API_KEY is non-empty and
  GOOGLE_API_KEY is absent or empty. The process environment is a
  `map<string, string>` that `GetLlmByProvider` takes and hands back. The
  temperature defaults to 0.1, as in the source.
- **Sub-agent dispatch** (`SendMessageTool.SendMessage`). The recipient is
  looked up. Then the agent's chat model is called directly with a
  two-message prompt, and the agent graph is run only if that call fails.
  The chat-model call, the agent graph and Python's `str()` are function
  parameters. The result records the calls made, so routing can be stated.
  The fallback reads the last message with
  `getattr(last, "content", last.get("content", str(last)))`. The default
  is evaluated first, so a last message that is an object, with no `get`,
  raises AttributeError even when it has `content`. Only a dict message gets
  through. The model keeps this behaviour as written
  (`SendMessageTool.FallbackErrorsEscape`).
- **The channel** (`Channel.SendMessage`). It checks the sender number,
  normalises the destination, and turns Twilio's answer into
  `{"ok": True, "sid": ...}` or lets its exception through. Twilio's
  `messages.create` is a parameter.

Python exceptions are the datatype `Values.Exception`. An operation that may
raise returns `Outcome<T> = Returned(value) | Raised(exc)`.

Files: `values.dfy` (values, exceptions, environment), `providers.dfy`
(src/utils.py), `channel.dfy` (src/channels/whatsapp.py), `app.dfy`
(app_whatsapp.py), `send_message.dfy` (src/tools/send_message.py).

## Model

| member | source | states |
|---|---|---|
| App.FirstStrAt | app_whatsapp.py:38-40 | the key loop only ever returns a string value |
| App.FirstStrAtFirstMatch | app_whatsapp.py:38-40 | the key loop returns the value at the first key, in order, whose value is a string |
| App.FirstStrAtNone | app_whatsapp.py:38-40 | the key loop finds nothing exactly when no key holds a string |
| App.ExtractText | app_whatsapp.py:12-50 | total; the answer is a string except when read from a last message's `content` attribute, which is then returned as is |
| App.ExtractTextIsFirstMatch | app_whatsapp.py:17-50 | the extractor equals the first applicable of the source's ten returns, taken in source order (the precedence order) |
| App.PlainString | app_whatsapp.py:18-19 | a plain string comes back unchanged |
| App.ListFirstPart | app_whatsapp.py:22-28 | only the first list element is inspected; a string "text" wins over a string "content"; a non-string "text" falls through |
| App.ListOtherwise | app_whatsapp.py:22-28 | an empty list, or one whose first element is not a dict, gives nothing |
| App.MessagesLastObject | app_whatsapp.py:33-36 | only the last of "messages" is consulted; its `content` attribute is returned even when not a string |
| App.MessagesLastDict | app_whatsapp.py:37-40 | a last message that is a dict yields its first string under "content", "text", "message", in that order |
| App.DictFallThrough | app_whatsapp.py:41-44 | when the messages branch yields nothing, a dict falls through to its string "text", then its string "content", else nothing |
| App.ObjectContent | app_whatsapp.py:47-48 | an object's `content` is returned only when it is a string |
| App.Unmatched | app_whatsapp.py:50 | a number, an empty list, an empty dict, an object without content give nothing |
| App.Reply | app_whatsapp.py:94-97 | the reply is always truthy; a truthy extraction is kept, anything else becomes the fixed fallback text |
| App.ProcessMessage | app_whatsapp.py:90-112 | an agent failure ends the task before any send; without a sender number the missing-sender error ends it; otherwise Twilio gets a truthy body, the reply of the extraction, and the sender's number normalised once, prefixed with `whatsapp:`, and Twilio's sid or exception is the outcome |
| Channel.Normalize | src/channels/whatsapp.py:22-23 | the result starts with `whatsapp:`; it equals the input exactly when the input already starts with it; otherwise it is the prefix followed by the input |
| Channel.NormalizeIdempotent | app_whatsapp.py:100-103 | normalising twice (app, then channel) equals normalising once |
| Channel.Prepare | src/channels/whatsapp.py:17-30 | a missing or empty FROM_WHATSAPP_NUMBER raises before any send; otherwise the send gets that sender, the normalised destination and the body |
| Channel.SendMessage | src/channels/whatsapp.py:12-37 | success gives `ok` true and the message's sid (None when it has none); a Twilio failure is re-raised, never a result |
| Channel.SendOutcomes | src/channels/whatsapp.py:31-37 | a returned result is always `ok`; it raises exactly when the sender is missing or Twilio raised |
| Providers.IndexOf | src/utils.py:58 | finds the first occurrence of the separator, or reports that there is none |
| Providers.ExtractProviderAndModel | src/utils.py:57-58 | one piece exactly when there is no `/`; otherwise the provider has no `/`, and provider + "/" + model is the input |
| Providers.SplitRoundTrip | src/utils.py:57-58 | a `/`-free provider joined to any model by `/` splits back into exactly those two |
| Providers.Resolve | src/utils.py:60-85 | resolution succeeds exactly for the four supported provider tokens; the model part and the temperature (default 0.1) pass through unchanged |
| Providers.NoSlashFailsUnpacking | src/utils.py:58-61 | without `/` the unpacking fails before any provider is checked, and the environment is unchanged |
| Providers.GoogleGeminiAlias | src/utils.py:64-72 | "google" and "gemini" give the same Google backend, model, temperature and environment update |
| Providers.OpenAIAndGroq | src/utils.py:73-81 | "openai" selects OpenAI and "groq" selects Groq, leaving the environment alone |
| Providers.UnsupportedProvider | src/utils.py:83-84 | any other provider raises "Unsupported LLM provider: " followed by the provider, leaving the environment alone |
| Providers.MigrateGeminiKey | src/utils.py:68-70 | only GOOGLE_API_KEY is ever written; the environment changes exactly when GEMINI_API_KEY is non-empty and GOOGLE_API_KEY is absent or empty, and then gets the Gemini key |
| Providers.GetLlmByProvider | src/utils.py:60-85 | the imperative version returns the resolved backend or error, and the environment as the migration leaves it |
| SendMessageTool.SendMessage | src/tools/send_message.py:18-38 | an unknown recipient gets "Invalid recipient: " + name without any call; otherwise the direct call is made first, with the agent's model and the two-message prompt, exactly when the model resolves; the graph runs last, with the message as one user turn, exactly when the direct path failed; exceptions escape only from the fallback |
| SendMessageTool.Run | src/tools/send_message.py:41-47 | `_run` is exactly `send_message` |
| SendMessageTool.FastPathAnswers | src/tools/send_message.py:23-31 | when the direct call answers, its content (or `str` of it) is returned and the graph is never run |
| SendMessageTool.FallbackRuns | src/tools/send_message.py:32-36 | any failure on the direct path runs the graph, whose answer or exception is what comes back |
| SendMessageTool.UnsupportedProviderFallsBack | src/tools/send_message.py:23-34 | an unsupported provider leads to the graph alone, with the environment unchanged |
| SendMessageTool.FallbackReadsLastMessage | src/tools/send_message.py:35-36 | the graph's answer is the "content" of the last message of its state, or `str` of that message when it has no "content" |
| SendMessageTool.FallbackErrorsEscape | src/tools/send_message.py:34-36 | a missing "messages", an empty list, and a last message that is an object (even one with `content`) all raise |

## Left out

- The FastAPI webhook, the root endpoint, server start-up and the 200 acknowledgement. These are HTTP plumbing.
- `asyncio.create_task` and `asyncio.to_thread`. Their point is concurrency. `App.ProcessMessage` gives the outcome the background task logs and swallows.
- The SQLite connection and the personal-assistant agent. They are storage and a foreign agent framework. The agent's answer, or its exception, is a parameter of `App.ProcessMessage`.
- The clock: `get_current_date_time` and the timestamped message text.
- `get_credentials` and Scripts/create_token.py. They perform OAuth and file-system I/O, and run an interactive browser flow.
- The Twilio client, the LangChain model constructors, `ChatPromptTemplate`, the `|` chain and the tracing decorator. These are foreign library calls. Constructors become the `Providers.Llm` tag. Chain invocation, agent invocation, `messages.create` and `str()` are function parameters. A failing model constructor counts as a failure of the chain parameter.
- Temperature arithmetic. The temperature is a `real` that is only passed through. Its default of 0.1 is `Providers.DefaultTemperature`; the dispatch always passes the agent's own temperature.
- `receive_messages`, a no-op, and `WhatsAppChannel.__init__`, which only stores the Twilio client.
- Printing and traceback logging.
- SendMessageTool.SendMessage: an `agent_mapping` still at its default None, where `.get` would raise AttributeError, is not modelled. The mapping is a `map`.
- SendMessageTool.SendMessage: agent objects are taken to be truthy, as Python objects are by default.
- Python objects are modelled as having no `get` method and no `__getitem__`, as with LangChain message objects. A dict is not an object with a `content` attribute.
- App.ExtractText: a last message object whose `content` is None gives `Some(Other(false))`, where Python returns None. Python's None has two encodings in the model; `App.Reply` treats both as falsy, so the reply sent is the same.

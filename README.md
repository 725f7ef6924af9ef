# Oshaberi chat bookkeeping, modelled in Dafny

Oshaberi is a chat front end for OpenAI-style models, with an Express/Hono server. This
project models the bookkeeping at its core and proves properties of it:

- what a conversation costs in tokens (`tokenLength`, in the client and server copies),
  and the reply budget the client derives from that cost;
- the client's pinia stores: the chat settings with their model allow-list, the saved
  message lists, and the session store that the hooks read and write;
- `useMessages`: the outbound message list (an optional system message, then each
  entry's raw message) and the live token count while typing;
- `useChat` as a step machine. Sending drops one trailing non-user entry. A reply is
  appended with its display text. A reply that calls a function leads to a request on
  the function endpoint. The function result is appended as a hidden entry, followed by
  the model's next reply. Errors become a notification text;
- the server's `POST /function` handler. It checks, in order, that the last message is
  an assistant message, that it calls a function, and that the function is registered.
  It fills in an absent content (a `null` one is kept), invokes the callback, and forwards the conversation with
  exactly one function message appended. It also covers the `useFunction` switch of
  `POST /`;
- the function tables and the `functions` list derived from them;
- the zod schemas of the Hono API, as parsers returning issues, with round trips. The
  API's `/chat` and `/models` routes, its error-to-400 mapping, and the conversion to
  LangChain messages, which moves each system message to the front;
- the document-source dispatch of the retrieval routes: required fields, defaults, and
  which loader each source type selects.

Foreign behaviour is passed in as a parameter:

- the tokenizer (`tok`);
- `JSON.parse` and `JSON.stringify`;
- the function callbacks;
- the model provider's predict and list-models calls;
- `marked.parse`.

A JavaScript exception that escapes a handler becomes an explicit outcome of the
operation: `Crashed`, `Threw` or a `TypeError` step. The one exception to this is the
single-message mode of the client's `tokenLength`, which needs a non-empty list; its
only caller always passes one element. When a handler throws, the session is left as
it was.

JavaScript semantics are written out where they decide a branch:

- truthiness;
- `typeof v === 'object'`, which is true for `null` and arrays;
- loose `== null`, which covers both `undefined` and `null`;
- destructuring defaults, which apply only to an absent key;
- `??`.

An absent key is `None` of an `Option<Json>`.

Where the repository's documented intent and the code differ, the model follows the
code, with one exception (the last item):

- `send` drops at most one trailing non-user entry, and only when it is not a resend.
  A resend drops nothing. `sendMessage` appends the user's entry before `send` runs.
- The outbound history is never cut down to fit the budget. Only `max_tokens` is
  reduced by the prompt's cost, and it is not clamped, so it can go negative.
- The exception is the error notification. `UseChat.ChatController.OnChatError` shows
  the intended text, `UseChat.ErrorToast`. The code as written throws when the body has
  no non-nullish `error`; that is modelled apart, by `UseChat.ErrorToastAsWritten`.
  "## Findings" records the discrepancy.

## Model

| member | source | states |
|---|---|---|
| TokenCounter.ContentOrEmpty | client/src/hooks/useTokenCalculator.ts:27 | a string content counts as itself; an absent or null content counts as the empty string |
| TokenCounter.SumTokensAppend | client/src/hooks/useTokenCalculator.ts:25-28 | appending a message raises the running sum by 4 plus its content's tokens |
| TokenCounter.SumTokensConcat | client/src/hooks/useTokenCalculator.ts:25-28 | the sum over a concatenation is the sum of the two sums |
| TokenCounter.SumTokensLowerBound | client/src/hooks/useTokenCalculator.ts:25-28 | every message costs at least its fixed 4 tokens |
| TokenCounter.SumTokensOnlyContents | client/src/hooks/useTokenCalculator.ts:25-28 | the cost depends only on the contents, not on roles or other fields |
| TokenCounter.ListTokensFacts | client/src/hooks/useTokenCalculator.ts:23-32 | the empty list costs 3; a list costs at least 3 + 4 per message; one message costs its single cost plus 3 |
| TokenCounter.ListTokensAppend | client/src/hooks/useTokenCalculator.ts:23-32 | one more message raises the list cost by 4 plus its content's tokens |
| TokenCounter.CountMessages | client/src/hooks/useTokenCalculator.ts:23-32 | the accumulator loop returns 3 plus the sum of 4 + tok(content) over all messages |
| TokenCounter.TokenLength | client/src/hooks/useTokenCalculator.ts:9-33 | a string costs its tokens; single mode costs 4 + tok(first content), ignores every later element and adds no list overhead; list mode costs 3 + the message sum |
| TokenCounter.NatToString | client/src/hooks/useTokenCalculator.ts:43 | a number renders as a non-empty string of decimal digits, with no leading zero, and "0" is the only rendering that starts with a zero |
| TokenCounter.DecimalRoundTrip | client/src/hooks/useTokenCalculator.ts:43 | reading the rendered digits back gives the number |
| TokenCounter.TokenCountDisplay | client/src/hooks/useTokenCalculator.ts:41-44 | the display is the count's digits followed by " tokens"; the digits read back as the count and have no leading zero, and a zero count renders exactly as "0 tokens", which fixes the text |
| ServerChatGpt.TokenLength | server/src/chatgpt.ts:21-40 | a string costs its tokens; a list costs 3 + the message sum, at least 3 + 4 per message, and exactly 3 when empty |
| ServerChatGpt.AgreesWithClient | server/src/routers/chatgpt.ts:17-36 | the server copies and the client's list mode give the same count on every input |
| ChatTypes.RoleName | client/src/hooks/useChat.ts:46 | a role renders as one of the four wire strings |
| ChatTypes.RoleNameInjective | client/src/hooks/useChat.ts:46 | different roles render differently |
| Stores.SupportedModelsExactly | client/src/store.ts:9-10 | exactly three models are supported |
| Stores.NotSupportedMessage | client/src/store.ts:34 | the error text is "Model ", the model name, then " is not supported" |
| Stores.ChatGPTSetting.constructor | client/src/store.ts:17-24 | the settings start at temperature 1, 1024 max tokens, gpt-3.5-turbo, zero penalties and an empty system text |
| Stores.ChatGPTSetting.SetTemperature | client/src/store.ts:26-28 | only the temperature changes |
| Stores.ChatGPTSetting.SetMaxTokens | client/src/store.ts:29-31 | only the maximum changes |
| Stores.ChatGPTSetting.SetModel | client/src/store.ts:32-38 | the model changes exactly when it is supported; otherwise the call fails with the error text and nothing changes; the model stays supported |
| Stores.SavedMessages.constructor | client/src/store.ts:43-51 | the store starts with one empty "default" list, and that list is selected |
| Stores.SavedMessages.GetKeys | client/src/store.ts:53-55 | every key of the store appears exactly once |
| Stores.SavedMessages.GetSelected | client/src/store.ts:56-58 | the selected key's list, or undefined when that key has none |
| Stores.SavedMessages.SelectChat | client/src/store.ts:61-63 | only the selection changes, and it is not checked against the keys |
| Stores.SavedMessages.SetSelectedMessages | client/src/store.ts:64-67 | only the selected key's list is replaced |
| Stores.SavedMessages.AddMessage | client/src/store.ts:68-77 | the message is appended to the key's list, which is created when absent; other keys keep their lists |
| Stores.WithMessages | client/src/hooks/useMessages.ts:13-16 | only the given session's list changes; its system text and all other sessions stay |
| Stores.ChatSessionStore.GetSelectedSession | client/src/hooks/useMessages.ts:12 | the selected session is one of the stored ones |
| Stores.ChatSessionStore.GetCurrentSystemMessage | client/src/hooks/useMessages.ts:25-26 | the current system text is the selected session's |
| Stores.ChatSessionStore.SetMessagesToSelectedSession | client/src/hooks/useMessages.ts:15 | only the selected session's list is replaced |
| UseMessages.SystemMessage | client/src/hooks/useMessages.ts:23-29 | there is one system message exactly when the system text is non-empty |
| UseMessages.Values | client/src/hooks/useMessages.ts:34 | each entry's raw message is kept, in order |
| UseMessages.MessagesToSend | client/src/hooks/useMessages.ts:31-36 | the outbound list has one element per entry plus the system message, which comes first when there is one |
| UseMessages.MessagesToSendEntries | client/src/hooks/useMessages.ts:31-36 | after the system message, the outbound list is every entry's raw message in order |
| UseMessages.TokenCount | client/src/hooks/useMessages.ts:38 | the count is 3, plus 4 + tok(system) when there is a system text, plus the cost of every entry |
| UseMessages.SystemMessageTokens | client/src/hooks/useMessages.ts:23-29 | the system message costs nothing when the text is empty, and 4 + tok(system) otherwise |
| UseMessages.CurrentMessageTokenLength | client/src/hooks/useMessages.ts:41-55 | the live count is the session count, plus 4 + tok(pending) when something is typed |
| UseMessages.PendingCountMatchesSent | client/src/hooks/useMessages.ts:41-55 | the live count while typing equals the count once the typed text is sent as a user entry |
| UseMessages.MessagesHook.Messages | client/src/hooks/useMessages.ts:12 | the getter reads the selected session's list |
| UseMessages.MessagesHook.SetMessages | client/src/hooks/useMessages.ts:13-16 | the setter replaces only the selected session's list |
| UseMessages.MessagesHook.ClearChat | client/src/hooks/useMessages.ts:19-21 | the selected session becomes empty and nothing else changes |
| UseChat.MaxTokens | client/src/hooks/useChat.ts:27-30 | the budget is unlimited exactly when the setting is 0; otherwise budget plus prompt cost equals the setting, and it is negative when the prompt costs more |
| UseChat.RequestParams | client/src/hooks/useChat.ts:23-33 | the request carries the model, temperature and penalties of the settings and the outbound list |
| UseChat.RequestBudget | client/src/hooks/useChat.ts:27-30 | a request's budget is unlimited exactly when the setting is 0; otherwise the budget plus the cost of the very list it sends equals the setting |
| UseChat.AppendedEntry | client/src/hooks/useChat.ts:42-55 | an appended entry shows the given text (the content by default), names its role, and carries the raw message |
| UseChat.UserEntryIsAppendedEntry | client/src/hooks/useChat.ts:154 | sending text appends the same entry as appending it with the user role |
| UseChat.TrimStart | client/src/hooks/useChat.ts:93 | the result is a suffix of the input that does not start with whitespace |
| UseChat.TrimEnd | client/src/hooks/useChat.ts:93 | the result is a prefix of the input that does not end with whitespace |
| UseChat.Trim | client/src/hooks/useChat.ts:93 | the result is no longer than the input, has no whitespace at either end, and is the input itself when the input has none there |
| UseChat.TrimOfPadded | client/src/hooks/useChat.ts:93 | trimming a text padded by whitespace on both sides gives back exactly the text between the padding |
| UseChat.TrimEndDropsWhitespaceTail | client/src/hooks/useChat.ts:92-93 | trimming drops exactly a whitespace tail that follows a non-blank text |
| UseChat.TrimStartKeepsTail | client/src/hooks/useChat.ts:85-93 | trimming the start affects only the leading part before a non-blank text |
| UseChat.FunctionCallText | client/src/hooks/useChat.ts:84-94 | the function-call display is the left-trimmed content followed by the note naming the function and its arguments |
| UseChat.ReplyText | client/src/hooks/useChat.ts:83-94 | a reply without a function call shows its content unchanged |
| UseChat.ReplyTextEndsWithNote | client/src/hooks/useChat.ts:84-94 | a reply with a function call always ends with the call's note |
| UseChat.BlankContentShowsOnlyNote | client/src/hooks/useChat.ts:84-94 | a blank content leaves only the note |
| UseChat.BlankTrimsAway | client/src/hooks/useChat.ts:93 | an all-whitespace text trims to nothing |
| UseChat.ReplyContent | client/src/hooks/useChat.ts:79 | the reply's content, or "" when the message or its content is missing |
| UseChat.ReplyRole | client/src/hooks/useChat.ts:80 | the reply's role, or assistant when the message or its role is missing |
| UseChat.ReplyEntry | client/src/hooks/useChat.ts:79-96 | the reply entry carries the reply's role (and its user label), content (empty when absent) and function call, no name, is shown as HTML and not hidden, and shows the reply text |
| UseChat.FunctionResultMarkdown | client/src/hooks/useChat.ts:133-139 | the markdown is the fixed heading and opening fence, then the content, then the closing fence and the template's trailing indentation |
| UseChat.FunctionResultMarkdownInjective | client/src/hooks/useChat.ts:133-139 | different contents give different markdown |
| UseChat.FunctionEntry | client/src/hooks/useChat.ts:129-145 | the function-result entry is hidden, carries the function message unchanged, names its role, and shows the rendered result markdown as HTML |
| UseChat.ErrorToastAsWritten | client/src/hooks/useChat.ts:106-108 | as written, the notification throws exactly when the response body has no non-nullish `error` member |
| UseChat.ErrorToastAsWrittenThrows | client/src/hooks/useChat.ts:107 | a body whose `error` is absent or null throws a TypeError |
| UseChat.ErrorToast | client/src/hooks/useChat.ts:106-108 | the notification is "Error: " followed by the provider error, or by "Unknown error" when there is none |
| UseChat.ErrorToastAgrees | client/src/hooks/useChat.ts:106-108 | the corrected text equals the written one wherever the written one does not throw |
| UseChat.ChatController.AppendToMessages | client/src/hooks/useChat.ts:35-57 | exactly one entry is appended to the selected session, and nothing else changes |
| UseChat.ChatController.Params | client/src/hooks/useChat.ts:23-33 | the request carries the settings' model, temperature and penalties and the selected session's outbound list; its budget is unlimited exactly when the maximum is 0, and otherwise the budget plus that list's cost equals the maximum |
| UseChat.ChatController.Send | client/src/hooks/useChat.ts:60-68 | unless resending, one trailing non-user entry is dropped; an empty list throws without change; otherwise the chat request is issued with the resulting parameters |
| UseChat.ChatController.SendWithFunctionCall | client/src/hooks/useChat.ts:112-116 | the function endpoint is asked exactly when the last entry carries a function call; an empty list throws |
| UseChat.ChatController.OnChatSuccess | client/src/hooks/useChat.ts:74-101 | no data changes nothing; no choices throws without change; otherwise exactly the reply entry is appended, and the function endpoint follows exactly when the reply calls a function |
| UseChat.ChatController.OnChatError | client/src/hooks/useChat.ts:103-110 | the notification text is the corrected error text, `ErrorToast` |
| UseChat.ChatController.OnFunctionSuccess | client/src/hooks/useChat.ts:118-151 | exactly two entries are appended, the hidden function result then the reply (with no note); another function request follows exactly when the reply calls one |
| UseChat.ChatController.SendMessage | client/src/hooks/useChat.ts:153-157 | the user's entry is appended and kept, the input is cleared, and the chat request is issued |
| Registry.ToFunctions | server/src/lib/functions.ts:63-66 | the derived list has the table's length and order, and each entry splits back into its table entry |
| Registry.ToFunctionsNames | server/src/lib/functions.ts:63-66 | each derived entry has its table entry's name and parameters |
| Registry.FindIndex | server/src/routers/chatgpt.ts:105-107 | the lookup finds the first entry with the name, and fails exactly when no entry has it; an undefined name matches nothing |
| Registry.FindIndexDistinct | server/src/routers/chatgpt.ts:105-107 | with distinct names, asking for an entry's name finds that entry |
| ServerFunctions.Functions | server/src/lib/functions.ts:10-68 | the server offers its two functions under their names, and only tell_datetime requires a timezone |
| ServerFunctions.RegisteredNames | server/src/lib/functions.ts:10-61 | the two registered names differ and each is found at its position |
| ClientFunctions.Functions | client/src/lib/functions.ts:10-42 | the client offers one function, get_location_by_ip_address, with its description and an optional ipAddress parameter |
| ChatGptRouter.UseFunctions | server/src/routers/chatgpt.ts:62-66 | functions are used when useFunction is absent, and otherwise exactly when its value is truthy |
| ChatGptRouter.UseFunctionsDefault | server/src/routers/chatgpt.ts:62-66 | functions are attached when useFunction is absent or true, and not when it is false or null |
| ChatGptRouter.ForwardChat | server/src/routers/chatgpt.ts:60-69 | the forwarded request keeps the messages and other fields, drops useFunction, and carries the server's functions whenever useFunction is truthy |
| ChatGptRouter.CallbackArgument | server/src/routers/chatgpt.ts:124-135 | the callback receives the parsed arguments (missing ones parse as "{}"), or the raw arguments when parsing fails or gives null |
| ChatGptRouter.Check | server/src/routers/chatgpt.ts:88-117 | a message passes exactly when it is an assistant function call naming a registered function; otherwise the first failing check's message, in order: not from the assistant, not a function call, the unknown function's name |
| ChatGptRouter.CalledName | server/src/routers/chatgpt.ts:105-117 | a message that passes the checks calls a function whose name is one of the two registered ones |
| ChatGptRouter.HandleFunction | server/src/routers/chatgpt.ts:80-160 | an empty list crashes; a failing check is a 400 with that check's message; when the checks pass, the outcome is a forwarded call exactly when the callback returns, and a failure with the callback's status (500 by default) exactly when it throws; on success, the forwarded messages are the originals with the last one's absent content set to "" (a `null` content is kept) and exactly one function message appended, carrying the stringified result under the called name, and the server's functions and the other settings are attached |
| ChatGptRouter.PassingCheckNamesRegisteredFunction | server/src/routers/chatgpt.ts:105-117 | a message that passes the checks names one of the two registered functions |
| ServerTypes.RoleOf | server/src/types/index.ts:9-24 | exactly user, assistant and system are message roles, and each reads back as its literal |
| ServerTypes.Under | server/src/types/index.ts:42-44 | nesting issues under a field keeps their number |
| ServerTypes.ParseProvider | server/src/types/index.ts:27 | a provider is valid exactly when it is "openai" or "ollama", the parsed provider is the one named, with one issue otherwise |
| ServerTypes.ParseMessage | server/src/types/index.ts:5-24 | a message is accepted exactly when it is valid, and the result carries its role and content |
| ServerTypes.ParseMessageItems | server/src/types/index.ts:43 | an item list is accepted exactly when every item is a valid message, and each result is that item's parse |
| ServerTypes.ParseMessages | server/src/types/index.ts:43 | messages are accepted exactly when they are an array of valid messages, and element i of the result is the parse of item i |
| ServerTypes.ParseNumber | server/src/types/index.ts:36 | a number is accepted exactly when it is a JSON number, whose value is kept |
| ServerTypes.ParseString | server/src/types/index.ts:38 | a string is accepted exactly when it is a JSON string, whose value is kept |
| ServerTypes.ParseChatParameter | server/src/types/index.ts:35-44 | a chat parameter is accepted exactly when it is valid, with its model, temperature and provider kept and each message the parse of the matching item; a rejection lists at least one issue |
| ServerTypes.ParseListModelParameter | server/src/types/index.ts:30-32 | the list-models parameter needs only a valid provider, and keeps the one named |
| ServerTypes.EncodeMessages | server/src/types/index.ts:43 | encoding keeps the number of messages |
| ServerTypes.MessageRoundTrip | server/src/types/index.ts:5-24 | parsing an encoded message gives it back |
| ServerTypes.MessageItemsRoundTrip | server/src/types/index.ts:43 | parsing an encoded message list gives it back |
| ServerTypes.ChatParameterRoundTrip | server/src/types/index.ts:35-44 | parsing an encoded chat parameter gives it back |
| ServerTypes.FunctionRoleRejected | server/src/types/index.ts:24 | a message with the function role is rejected |
| LangChain.ToBase | server/src/lib/message.ts:9-28 | each message becomes the LangChain message of its role, with its content |
| LangChain.MapBase | server/src/lib/message.ts:9-28 | conversion is element by element |
| LangChain.Reverse | server/src/lib/message.ts:21-27 | reversal puts the k-th from the end at position k |
| LangChain.SystemsOfAppend | server/src/lib/message.ts:8-29 | a new message adds to the system part exactly when it is a system message |
| LangChain.ChatOfAppend | server/src/lib/message.ts:8-29 | a new message adds to the chat part exactly when it is not a system message |
| LangChain.SystemsOfAreSystem | server/src/lib/message.ts:21-27 | the system part holds only system messages |
| LangChain.ChatOfAreNotSystem | server/src/lib/message.ts:9-20 | the chat part holds no system message |
| LangChain.PartsPartition | server/src/lib/message.ts:8-29 | the two parts together hold exactly the input's messages |
| LangChain.ReverseMultiset | server/src/lib/message.ts:21-27 | reversal keeps the same messages |
| LangChain.MapBasePush | server/src/lib/message.ts:10-20 | pushing a message converts to pushing its conversion |
| LangChain.MapBasePrepend | server/src/lib/message.ts:22-27 | prepending a message converts to prepending its conversion |
| LangChain.ReorderedStep | server/src/lib/message.ts:8-29 | a system message goes to the front, any other message to the back |
| LangChain.ToLangChainMessages | server/src/lib/message.ts:5-32 | the loop returns the reversed system messages followed by the other messages in order, each converted |
| LangChain.ConversionPreservesMessages | server/src/lib/message.ts:5-32 | no message is lost or added |
| LangChain.SystemsComeFirst | server/src/lib/message.ts:5-32 | a position holds a system message exactly when it lies before all chat messages |
| LangChain.SystemsReversed | server/src/lib/message.ts:21-27 | the system messages appear in reverse order of arrival |
| LangChain.ChatKeepsOrder | server/src/lib/message.ts:9-20 | user and assistant messages keep their order |
| Api.OnError | server/src/api.ts:14-28 | every error becomes a 400; a validation error reports all its issues in order, any other error one text |
| Api.Chat | server/src/api.ts:40-81 | an unreadable body is a 400 with its error text; an invalid body is the 400 that lists the parse's issues (at least one); a valid one is converted and predicted, and the reply comes back as an assistant message with status 200, or the prediction's error goes through `onError` |
| Api.Models | server/src/api.ts:30-38 | a missing provider is a 400 with one type issue and an unknown one a 400 with one enum issue; a valid one returns its model list with status 200, or the listing's error (a `ZodError` becomes its issue list) goes through `onError` |
| DocumentSource.IsDocumentSource | server/src/routers/v2/isDocumentSource.ts:9-18 | a value is a document source exactly when it is one of the four enum strings |
| DocumentSource.WithDefault | server/src/routers/v2/isDocumentSource.ts:51 | a destructuring default replaces only an absent value |
| DocumentSource.Buffer | server/src/routers/v2/isDocumentSource.ts:90-92 | a file's buffer exists only for an object that has one |
| DocumentSource.GetDocuments | server/src/routers/v2/isDocumentSource.ts:46-114 | youtube needs a videoId and defaults the language to "en"; web needs a url and defaults the selector to "body"; text needs a file or a url and prefers the file; pdf needs a file; a wrong-typed field or an unknown type gives null |

## Left out

- The tokenizer is a parameter (`tok`). It stands in for `@dqbd/tiktoken`, a foreign library.
- HTTP, async scheduling and Vue reactivity are left out. This covers Express, Hono, axios, vue-query mutations and watchers. Each watcher is one step method, and the request a step issues is returned rather than sent.
- The follow-up function loop is a step relation. Nothing bounds its depth in the source, so its termination is not modelled.
- Persistence (pinia `persist`, Redis state routes, `useSaveStates`) is left out because it is storage I/O.
- The LLM providers, embeddings and vector stores are SDK calls. They appear only as the `predict` and `listModels` parameters.
- The document loaders themselves are not modelled: they are I/O. A dispatch names the loader call and its arguments.
- Function callbacks (the IP lookup and the date formatting) are the `invoke` parameter, whose result is an opaque string.
- Markdown rendering is not modelled; `marked.parse` is the `render` parameter. Toasts, speech and the clipboard are UI.
- Temperatures, penalties and the token maximum are floats in the source. They are `real` here: no rounding, NaN or infinities.
- Stores.SavedMessages.GetKeys: does not state the order of `Object.keys`. ECMAScript fixes that order (integer-like keys ascending, then the other keys in insertion order), but a Dafny map keeps no insertion order, so the model states only that every key appears exactly once.
- Inherited JavaScript object keys (such as `toString` on `this.messages[key]`) are not modelled: a key is present only when it was stored.
- The `useChatSession` store is modelled as `Stores.ChatSessionStore`, but its source file is not part of this model, so its shape is assumed: it is taken from `useSavedMessages`, as a map of sessions with one system text and one message list each, plus a selected key. The selected key is assumed to name a session.
- src/store.ts repeats the settings store of client/src/store.ts line for line, so the result is one class. Likewise, the `tokenLength` of server/src/routers/chatgpt.ts and the conversion loop of server/src/api.ts repeat server/src/chatgpt.ts and server/src/lib/message.ts; each is modelled once.
- server/src/api.ts imports `OshaberiChatParameterSchema` and `OshaberiValidLLMProviderSchema`, while server/src/types/index.ts exports the schemas without the `Schema` suffix. The model takes them to be the same schemas.
- The `/tokens` routes and the plain forwarding route of server/src/chatgpt.ts are HTTP plumbing around `tokenLength`. They are not modelled beyond it.
- TokenCounter.TokenLength: requires a non-empty list in single-message mode, where the source would throw reading `messages[0]`. Its only caller always passes one element.
- ServerTypes.ParseChatParameter: states which inputs are accepted and what each field becomes. The order and paths of the issues are defined by the parser and not claimed to match zod's own order and wording.
- The settings of `ChatGptRouter.ChatRequest` other than messages and functions are kept as an opaque JSON map and forwarded unchanged.

## Findings

| source | as written | input that shows it | evidently intended | confidence | as-written member | corrected member |
|---|---|---|---|---|---|---|
| client/src/hooks/useChat.ts:107 | `data?.error.toString() ?? 'Unknown error'` reads `.toString()` of an absent or null `error` | an error response whose body has no non-nullish `error` member (for example the empty body `POST /` returns for an error that carries no response) | the notification "Error: Unknown error" | not executed | UseChat.ErrorToastAsWrittenThrows | UseChat.ErrorToast |

/** The `useChat` hook (client/src/hooks/useChat.ts). The vue-query mutations and watchers
    that chain a turn are modelled as step methods: each handler updates the selected
    session and returns the next request the source would issue (`chat.mutate` goes to
    /api/chat, `chatFunc.mutate` to /api/chat/function), or none. A watcher that throws
    leaves the session as it was. */
module UseChat {
  import opened Wrappers
  import opened ChatTypes
  import opened TokenCounter
  import opened Stores
  import opened UseMessages

  const TypeError := "TypeError"

  /** `CreateChatCompletionRequest` as the client builds it in `params`. */
  datatype ChatParams = ChatParams(
    model: string,
    messages: seq<ReqMessage>,
    temperature: real,
    maxTokens: Option<real>,
    presencePenalty: real,
    frequencyPenalty: real)

  /** `max_tokens`: unlimited when the setting is 0, otherwise what the prompt leaves of
      the configured maximum, with no clamp at zero. */
  function MaxTokens(configured: real, promptTokens: nat): (r: Option<real>)
    ensures r.None? <==> configured == 0.0
    ensures r.Some? ==> r.value + promptTokens as real == configured
    ensures configured != 0.0 && promptTokens as real > configured ==> r.Some? && r.value < 0.0
  {
    if configured == 0.0 then None else Some(configured - promptTokens as real)
  }

  /** `params`: the settings, the outbound list, and the reply budget. */
  function RequestParams(model: string, temperature: real, maxTokens: real, presencePenalty: real, frequencyPenalty: real,
                         tok: Tokenizer, system: string, entries: seq<ChatMessage>): (p: ChatParams)
    ensures p.messages == MessagesToSend(system, entries)
    ensures p.model == model && p.temperature == temperature
    ensures p.presencePenalty == presencePenalty && p.frequencyPenalty == frequencyPenalty
  {
    ChatParams(model, MessagesToSend(system, entries), temperature,
      MaxTokens(maxTokens, TokenCount(tok, system, entries)), presencePenalty, frequencyPenalty)
  }

  /** The reply budget of a request: unlimited exactly when the setting is 0, and otherwise
      what remains of the setting after the cost of the very list the request sends. */
  lemma RequestBudget(model: string, temperature: real, maxTokens: real, presencePenalty: real, frequencyPenalty: real,
                      tok: Tokenizer, system: string, entries: seq<ChatMessage>)
    ensures var p := RequestParams(model, temperature, maxTokens, presencePenalty, frequencyPenalty, tok, system, entries);
            && (p.maxTokens.None? <==> maxTokens == 0.0)
            && (p.maxTokens.Some? ==> p.maxTokens.value + ListTokens(tok, p.messages) as real == maxTokens)
  {
    var p := RequestParams(model, temperature, maxTokens, presencePenalty, frequencyPenalty, tok, system, entries);
    assert p.maxTokens == MaxTokens(maxTokens, ListTokens(tok, p.messages));
  }

  datatype Endpoint = ChatEndpoint | FunctionEndpoint

  /** What a step leads to: a request on one of the two endpoints, nothing more, or an
      exception thrown by the handler. */
  datatype Step = Request(endpoint: Endpoint, params: ChatParams) | Done | Threw(error: string)

  /** The entry `appendToMessages(role, content, functionCall, name, message)` adds. */
  function AppendedEntry(role: Role, content: string, functionCall: Option<FunctionCall>, name: Option<string>, message: Option<string>): (e: ChatMessage)
    ensures e.message == message.GetOr(content) && e.user == RoleName(role)
    ensures e.value == ReqMessage(role, Str(content), name, functionCall)
    ensures e.isHTML == Some(true) && e.hide.None?
  {
    ChatMessage(message.GetOr(content), RoleName(role), Some(true), ReqMessage(role, Str(content), name, functionCall), None)
  }

  lemma UserEntryIsAppendedEntry(text: string)
    ensures AppendedEntry(User, text, None, None, None) == UserEntry(text)
  {
  }

  // ---- display text of a function-call reply ----

  /** JavaScript's WhiteSpace and LineTerminator characters, which `trim` removes. */
  predicate IsJsWhitespace(c: char) {
    c in {'\t', '\n', '\U{B}', '\U{C}', '\r', ' ', '\U{A0}', '\U{1680}', '\U{2028}', '\U{2029}',
          '\U{202F}', '\U{205F}', '\U{3000}', '\U{FEFF}'}
    || '\U{2000}' <= c <= '\U{200A}'
  }

  function TrimStart(s: string): (r: string)
    ensures r == [] || !IsJsWhitespace(r[0])
    ensures |r| <= |s| && r == s[|s| - |r|..]
  {
    if s != [] && IsJsWhitespace(s[0]) then TrimStart(s[1..]) else s
  }

  function TrimEnd(s: string): (r: string)
    ensures r == [] || !IsJsWhitespace(r[|r| - 1])
    ensures |r| <= |s| && r == s[..|r|]
  {
    if s != [] && IsJsWhitespace(s[|s| - 1]) then TrimEnd(s[..|s| - 1]) else s
  }

  /** `String.prototype.trim`: no whitespace is left at either end, and a string with
      none there is kept as it is. */
  function Trim(s: string): (r: string)
    ensures |r| <= |s|
    ensures r == [] || (!IsJsWhitespace(r[0]) && !IsJsWhitespace(r[|r| - 1]))
    ensures s != [] && !IsJsWhitespace(s[0]) && !IsJsWhitespace(s[|s| - 1]) ==> r == s
  {
    var t := TrimEnd(s);
    assert TrimStart(t) != [] ==> TrimStart(t)[|TrimStart(t)| - 1] == t[|t| - 1];
    TrimStart(t)
  }

  lemma {:induction false} TrimEndDropsWhitespaceTail(a: string, w: string)
    requires a != [] && !IsJsWhitespace(a[|a| - 1])
    requires forall i :: 0 <= i < |w| ==> IsJsWhitespace(w[i])
    ensures TrimEnd(a + w) == a
  {
    if w != [] {
      assert (a + w)[..|a + w| - 1] == a + w[..|w| - 1];
      TrimEndDropsWhitespaceTail(a, w[..|w| - 1]);
    } else {
      assert a + w == a;
    }
  }

  lemma {:induction false} TrimStartKeepsTail(p: string, b: string)
    requires b != [] && !IsJsWhitespace(b[0])
    ensures TrimStart(p + b) == TrimStart(p) + b
  {
    if p == [] {
      assert p + b == b;
    } else if IsJsWhitespace(p[0]) {
      assert (p + b)[1..] == p[1..] + b;
      TrimStartKeepsTail(p[1..], b);
    }
  }

  /** The note naming the called function ('-' when unnamed) and its arguments in a json block. */
  function CallingNote(call: FunctionCall): string {
    "**Calling `" + call.name.GetOr("-") + "` with arguments:**\n\n```json\n" + call.arguments.GetOr("") + "\n```"
  }

  /** The trimmed template literal of the success watcher for a function-call reply. */
  function FunctionCallText(content: string, call: FunctionCall): (r: string)
    ensures r == TrimStart("\n" + content + "\n\n") + CallingNote(call)
  {
    var note := CallingNote(call);
    var body := "\n" + content + "\n\n" + note;
    assert note[0] == '*' && note[|note| - 1] == '`';
    assert body == ("\n" + content + "\n\n") + note;
    TrimEndDropsWhitespaceTail(body, "\n    ");
    TrimStartKeepsTail("\n" + content + "\n\n", note);
    Trim(body + "\n    ")
  }

  /** The text shown for an assistant reply: its content, or the function-call note
      after the (left-trimmed) content. */
  function ReplyText(content: string, call: Option<FunctionCall>): (r: string)
    ensures call.None? ==> r == content
  {
    if call.None? then content else FunctionCallText(content, call.value)
  }

  /** A reply with a function call always shows the call's note last. */
  lemma ReplyTextEndsWithNote(content: string, call: FunctionCall)
    ensures var r := ReplyText(content, Some(call));
            |r| >= |CallingNote(call)| && r[|r| - |CallingNote(call)|..] == CallingNote(call)
  {
    var r := ReplyText(content, Some(call));
    var p := TrimStart("\n" + content + "\n\n");
    assert r == p + CallingNote(call);
    assert r[|p|..] == CallingNote(call);
  }

  /** An empty (or all-blank) content leaves only the note. */
  lemma BlankContentShowsOnlyNote(content: string, call: FunctionCall)
    requires forall i :: 0 <= i < |content| ==> IsJsWhitespace(content[i])
    ensures FunctionCallText(content, call) == CallingNote(call)
  {
    BlankTrimsAway("\n" + content + "\n\n");
  }

  /** `trim` removes exactly a whitespace prefix and a whitespace suffix, whatever lies
      between them: any text splits this way, so this pins `Trim` down completely. */
  lemma TrimOfPadded(w1: string, c: string, w2: string)
    requires forall i :: 0 <= i < |w1| ==> IsJsWhitespace(w1[i])
    requires forall i :: 0 <= i < |w2| ==> IsJsWhitespace(w2[i])
    requires c == [] || (!IsJsWhitespace(c[0]) && !IsJsWhitespace(c[|c| - 1]))
    ensures Trim(w1 + c + w2) == c
  {
    BlankTrimsAway(w1);
    if c == [] {
      var s := w1 + c + w2;
      assert forall i :: 0 <= i < |s| ==> IsJsWhitespace(s[i]) by {
        forall i | 0 <= i < |s| ensures IsJsWhitespace(s[i]) {
          if i < |w1| { assert s[i] == w1[i]; } else { assert s[i] == w2[i - |w1|]; }
        }
      }
      BlankTrimsAway(TrimEnd(s));
    } else {
      TrimEndDropsWhitespaceTail(w1 + c, w2);
      TrimStartKeepsTail(w1, c);
      assert w1 + c + w2 == (w1 + c) + w2;
    }
  }

  lemma {:induction false} BlankTrimsAway(s: string)
    requires forall i :: 0 <= i < |s| ==> IsJsWhitespace(s[i])
    ensures TrimStart(s) == []
  {
    if s != [] {
      BlankTrimsAway(s[1..]);
    }
  }

  // ---- the parts of a response the watchers read ----

  /** `message?.content ?? ''` */
  function ReplyContent(m: Option<RespMessage>): (s: string)
    ensures m.None? || m.value.content.None? ==> s == ""
    ensures m.Some? && m.value.content.Some? ==> s == m.value.content.value
  {
    if m.Some? then m.value.content.GetOr("") else ""
  }

  /** `message?.role ?? 'assistant'` */
  function ReplyRole(m: Option<RespMessage>): (r: Role)
    ensures m.None? || m.value.role.None? ==> r == Assistant
    ensures m.Some? && m.value.role.Some? ==> r == m.value.role.value
  {
    if m.Some? then m.value.role.GetOr(Assistant) else Assistant
  }

  /** `message?.function_call` */
  function ReplyCall(m: Option<RespMessage>): Option<FunctionCall> {
    if m.Some? then m.value.functionCall else None
  }

  /** The entry the chat success watcher appends for a reply. */
  function ReplyEntry(reply: Option<RespMessage>): (e: ChatMessage)
    ensures e.value.functionCall == ReplyCall(reply) && e.value.content == Str(ReplyContent(reply))
    ensures e.value.role == ReplyRole(reply) && e.user == RoleName(ReplyRole(reply))
    ensures e.value.name.None? && e.isHTML == Some(true) && e.hide.None?
    ensures e.message == ReplyText(ReplyContent(reply), ReplyCall(reply))
  {
    AppendedEntry(ReplyRole(reply), ReplyContent(reply), ReplyCall(reply), None,
      Some(ReplyText(ReplyContent(reply), ReplyCall(reply))))
  }

  /** The body of a /api/chat/function response. */
  datatype FunctionResponse = FunctionResponse(result: CompletionResponse, functionMessage: ReqMessage)

  /** The markdown the hidden function-result entry renders: the result in a code block,
      between a fixed heading and a fixed closing line. */
  function FunctionResultMarkdown(content: string): (r: string)
    ensures |r| == 25 + |content| + 15
    ensures r[..25] == "\nFunction returned:\n\n```\n"
    ensures r[25..25 + |content|] == content
    ensures r[25 + |content|..] == "\n```\n          "
  {
    "\nFunction returned:\n\n```\n" + content + "\n```\n          "
  }

  /** Different results render differently. */
  lemma FunctionResultMarkdownInjective(a: string, b: string)
    requires FunctionResultMarkdown(a) == FunctionResultMarkdown(b)
    ensures a == b
  {
    var r := FunctionResultMarkdown(a);
    assert a == r[25..25 + |a|];
  }

  /** The hidden entry holding a function's result; `render` is `marked.parse`. */
  function FunctionEntry(functionMessage: ReqMessage, render: string -> string): (e: ChatMessage)
    ensures e.hide == Some(true) && e.value == functionMessage && e.user == RoleName(functionMessage.role)
    ensures e.message == render(FunctionResultMarkdown(ContentOrEmpty(functionMessage))) && e.isHTML == Some(true)
  {
    ChatMessage(render(FunctionResultMarkdown(ContentOrEmpty(functionMessage))),
      RoleName(functionMessage.role), Some(true), functionMessage, Some(true))
  }

  // ---- error notification ----

  /** What `chat.error?.value?.response?.data` holds: nothing at some level of the chain,
      a body whose `error` is absent or `null` (no non-nullish `error` member), or a body
      whose `error` renders as `text`. */
  datatype ErrorBody = NoErrorData | DataWithoutError | DataWithError(text: string)

  /** The toast text as written: `data?.error.toString()` throws on a body whose `error` is
      absent or `null` (`toString` of undefined or null), before `?? 'Unknown error'` can apply. */
  function ErrorToastAsWritten(body: ErrorBody): (r: Result<string, string>)
    ensures r.Failure? <==> body == DataWithoutError
  {
    match body
    case NoErrorData => Success("Error: Unknown error")
    case DataWithoutError => Failure(TypeError)
    case DataWithError(text) => Success("Error: " + text)
  }

  lemma ErrorToastAsWrittenThrows()
    ensures ErrorToastAsWritten(DataWithoutError) == Failure(TypeError)
  {
  }

  /** The toast text with the optional chain completed (`data?.error?.toString()`):
      "Error: " and the provider error, or "Unknown error". */
  function ErrorToast(body: ErrorBody): (r: string)
    ensures |r| >= 7 && r[..7] == "Error: "
    ensures body.DataWithError? ==> r[7..] == body.text
    ensures !body.DataWithError? ==> r[7..] == "Unknown error"
  {
    "Error: " + (if body.DataWithError? then body.text else "Unknown error")
  }

  /** The correction changes only the case the source throws on. */
  lemma ErrorToastAgrees(body: ErrorBody)
    requires body != DataWithoutError
    ensures ErrorToastAsWritten(body) == Success(ErrorToast(body))
  {
    if body.DataWithError? {
      assert ErrorToast(body) == "Error: " + body.text;
    } else {
      assert ErrorToast(body) == "Error: Unknown error";
    }
  }

  // ---- the controller ----

  class ChatController {
    const hook: MessagesHook
    const settings: ChatGPTSetting
    const tok: Tokenizer

    constructor (hook: MessagesHook, settings: ChatGPTSetting, tok: Tokenizer)
      ensures this.hook == hook && this.settings == settings && this.tok == tok
    {
      this.hook := hook;
      this.settings := settings;
      this.tok := tok;
    }

    ghost predicate Valid()
      reads this, hook, hook.store
    {
      hook.store.Valid()
    }

    /** The selected session's entries (`messages.value`). */
    function Entries(): seq<ChatMessage>
      reads this, hook, hook.store
      requires Valid()
    {
      hook.Messages()
    }

    /** `params` over the current settings and the selected session: the settings, the
        outbound list, and what the configured maximum leaves after that list's cost. */
    function Params(): (p: ChatParams)
      reads this, hook, hook.store, settings
      requires Valid()
      ensures p.messages == MessagesToSend(hook.store.GetCurrentSystemMessage(), Entries())
      ensures p.model == settings.model && p.temperature == settings.temperature
      ensures p.presencePenalty == settings.presencePenalty && p.frequencyPenalty == settings.frequencyPenalty
      ensures p.maxTokens.None? <==> settings.maxTokens == 0.0
      ensures p.maxTokens.Some? ==> p.maxTokens.value + ListTokens(tok, p.messages) as real == settings.maxTokens
    {
      RequestBudget(settings.model, settings.temperature, settings.maxTokens, settings.presencePenalty,
        settings.frequencyPenalty, tok, hook.store.GetCurrentSystemMessage(), hook.Messages());
      RequestParams(settings.model, settings.temperature, settings.maxTokens, settings.presencePenalty,
        settings.frequencyPenalty, tok, hook.store.GetCurrentSystemMessage(), hook.Messages())
    }

    /** `appendToMessages`: one entry more at the end of the selected session. */
    method AppendToMessages(role: Role, content: string, functionCall: Option<FunctionCall>, name: Option<string>, message: Option<string>)
      requires Valid()
      modifies hook.store
      ensures Valid() && hook.store.selected == old(hook.store.selected)
      ensures Entries() == old(Entries()) + [AppendedEntry(role, content, functionCall, name, message)]
      ensures hook.store.sessions == WithMessages(old(hook.store.sessions), hook.store.selected, Entries())
    {
      var theMessage := message.GetOr(content);
      var entry := ChatMessage(theMessage, RoleName(role), Some(true), ReqMessage(role, Str(content), name, functionCall), None);
      hook.SetMessages(hook.Messages() + [entry]);
    }

    /** `send(isResend)`: unless resending, first drops one last entry not from the user;
        then issues the chat request. Reading the last entry of an empty list throws. */
    method Send(isResend: bool) returns (step: Step)
      requires Valid()
      modifies hook.store
      ensures Valid() && hook.store.selected == old(hook.store.selected)
      ensures !isResend && old(Entries()) == [] ==> step == Threw(TypeError) && Entries() == old(Entries())
      ensures isResend || old(Entries()) != [] ==> step == Request(ChatEndpoint, Params())
      ensures isResend ==> Entries() == old(Entries())
      ensures !isResend && old(Entries()) != [] ==>
                Entries() == (if old(Entries())[|old(Entries())| - 1].user != "user"
                              then old(Entries())[..|old(Entries())| - 1] else old(Entries()))
      ensures hook.store.sessions == WithMessages(old(hook.store.sessions), hook.store.selected, Entries())
    {
      var messages := hook.Messages();
      var messageLength := |messages|;
      if !isResend {
        if messageLength == 0 {
          assert old(hook.store.sessions) == WithMessages(hook.store.sessions, hook.store.selected, messages);
          return Threw(TypeError);
        }
        if messages[messageLength - 1].user != "user" {
          hook.SetMessages(messages[..messageLength - 1]);
        } else {
          assert old(hook.store.sessions) == WithMessages(hook.store.sessions, hook.store.selected, messages);
        }
      } else {
        assert old(hook.store.sessions) == WithMessages(hook.store.sessions, hook.store.selected, messages);
      }
      step := Request(ChatEndpoint, Params());
    }

    /** `sendWithFunctionCall`: a follow-up function request exactly when the last entry
        carries a function call. */
    method SendWithFunctionCall() returns (step: Step)
      requires Valid()
      ensures var es := Entries();
              step == if es == [] then Threw(TypeError)
                      else if es[|es| - 1].value.functionCall.Some? then Request(FunctionEndpoint, Params())
                      else Done
    {
      var messages := hook.Messages();
      if |messages| == 0 {
        step := Threw(TypeError);
      } else if messages[|messages| - 1].value.functionCall.Some? {
        step := Request(FunctionEndpoint, Params());
      } else {
        step := Done;
      }
    }

    /** The `chat.isSuccess` watcher: appends the reply (with the function-call note as its
        text when there is a call) and asks for the function when there is one. */
    method OnChatSuccess(data: Option<CompletionResponse>) returns (step: Step)
      requires Valid()
      modifies hook.store
      ensures Valid() && hook.store.selected == old(hook.store.selected)
      ensures data.None? ==> step == Done && Entries() == old(Entries())
      ensures data.Some? && data.value.choices == [] ==> step == Threw(TypeError) && Entries() == old(Entries())
      ensures data.Some? && data.value.choices != [] ==>
                && Entries() == old(Entries()) + [ReplyEntry(data.value.choices[0].message)]
                && step == (if ReplyCall(data.value.choices[0].message).Some? then Request(FunctionEndpoint, Params()) else Done)
      ensures hook.store.sessions == WithMessages(old(hook.store.sessions), hook.store.selected, Entries())
    {
      if data.None? {
        assert old(hook.store.sessions) == WithMessages(hook.store.sessions, hook.store.selected, Entries());
        return Done;
      }
      if |data.value.choices| == 0 {
        assert old(hook.store.sessions) == WithMessages(hook.store.sessions, hook.store.selected, Entries());
        return Threw(TypeError);
      }
      var reply := data.value.choices[0].message;
      var content := ReplyContent(reply);
      var functionCall := ReplyCall(reply);
      AppendToMessages(ReplyRole(reply), content, functionCall, None, Some(ReplyText(content, functionCall)));
      assert Entries()[|Entries()| - 1] == ReplyEntry(reply);
      step := SendWithFunctionCall();
    }

    /** The `chat.isError` watcher: the notification text. */
    method OnChatError(body: ErrorBody) returns (toast: string)
      ensures toast == ErrorToast(body)
    {
      toast := ErrorToast(body);
    }

    /** The `chatFunc.isSuccess` watcher: appends the hidden function-result entry, then the
        model's reply (its content as text, with no note), and asks again if it calls. */
    method OnFunctionSuccess(data: Option<FunctionResponse>, render: string -> string) returns (step: Step)
      requires Valid()
      modifies hook.store
      ensures Valid() && hook.store.selected == old(hook.store.selected)
      ensures data.None? ==> step == Done && Entries() == old(Entries())
      ensures data.Some? && data.value.result.choices == [] ==> step == Threw(TypeError) && Entries() == old(Entries())
      ensures data.Some? && data.value.result.choices != [] ==>
                var reply := data.value.result.choices[0].message;
                && Entries() == old(Entries()) + [FunctionEntry(data.value.functionMessage, render),
                                                  AppendedEntry(ReplyRole(reply), ReplyContent(reply), ReplyCall(reply), None, None)]
                && step == (if ReplyCall(reply).Some? then Request(FunctionEndpoint, Params()) else Done)
      ensures hook.store.sessions == WithMessages(old(hook.store.sessions), hook.store.selected, Entries())
    {
      if data.None? {
        assert old(hook.store.sessions) == WithMessages(hook.store.sessions, hook.store.selected, Entries());
        return Done;
      }
      if |data.value.result.choices| == 0 {
        assert old(hook.store.sessions) == WithMessages(hook.store.sessions, hook.store.selected, Entries());
        return Threw(TypeError);
      }
      var reply := data.value.result.choices[0].message;
      var message := ReplyContent(reply);
      var role := ReplyRole(reply);
      var functionCall := ReplyCall(reply);
      var functionMessage := data.value.functionMessage;
      hook.SetMessages(hook.Messages() + [FunctionEntry(functionMessage, render)]);
      AppendToMessages(role, message, functionCall, None, None);
      step := SendWithFunctionCall();
    }

    /** `sendMessage(text)`: appends the user's entry, clears the input, and sends; the new
        last entry is the user's own, so nothing is dropped. */
    method SendMessage(text: string) returns (step: Step)
      requires Valid()
      modifies hook, hook.store
      ensures Valid() && hook.store.selected == old(hook.store.selected)
      ensures Entries() == old(Entries()) + [UserEntry(text)]
      ensures hook.currentMessage == ""
      ensures step == Request(ChatEndpoint, Params())
      ensures hook.store.sessions == WithMessages(old(hook.store.sessions), hook.store.selected, Entries())
    {
      AppendToMessages(User, text, None, None, None);
      hook.currentMessage := "";
      step := Send(false);
    }
  }
}

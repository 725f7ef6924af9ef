/** The zod request schemas of server/src/types/index.ts as datatypes, declarative
    validity predicates, and the parsers `Schema.parse` performs. A failed parse yields the
    list of issues zod collects; each issue has a path and a kind (zod's messages are not
    modelled). Unknown keys are accepted and dropped, as `z.object` does by default. */
module ServerTypes {
  import opened Wrappers
  import opened Json

  datatype MessageRole = UserRole | AssistantRole | SystemRole

  /** The discriminated union `Message`: UserMessage | AssistantMessage | SystemMessage. */
  datatype Message = Message(role: MessageRole, content: string)

  /** `OshaberiValidLLMProvider` */
  datatype Provider = OpenAI | Ollama

  /** `OshaberiChatParameter` (`OshaberiLLMParameter` extended with `messages`). */
  datatype ChatParameter = ChatParameter(temperature: real, provider: Provider, model: string, messages: seq<Message>)

  /** `OshaberiListModelParameterSchema` */
  datatype ListModelParameter = ListModelParameter(provider: Provider)

  datatype PathSegment = Key(key: string) | Index(index: nat)
  datatype IssueKind = InvalidType | InvalidUnionDiscriminator | InvalidEnumValue
  datatype Issue = Issue(path: seq<PathSegment>, kind: IssueKind)

  function RoleLiteral(r: MessageRole): string {
    match r
    case UserRole => "user"
    case AssistantRole => "assistant"
    case SystemRole => "system"
  }

  /** The discriminator values the union accepts. */
  function RoleOf(s: string): (r: Option<MessageRole>)
    ensures r.Some? <==> s in {"user", "assistant", "system"}
    ensures r.Some? ==> RoleLiteral(r.value) == s
  {
    if s == "user" then Some(UserRole)
    else if s == "assistant" then Some(AssistantRole)
    else if s == "system" then Some(SystemRole)
    else None
  }

  // ---- declarative validity ----

  ghost predicate ValidProvider(v: Option<Json>) {
    v == Some(JStr("openai")) || v == Some(JStr("ollama"))
  }

  ghost predicate ValidMessage(v: Option<Json>) {
    && v.Some? && v.value.JObj?
    && Field(v.value.fields, "role") in {Some(JStr("user")), Some(JStr("assistant")), Some(JStr("system"))}
    && IsStringType(Field(v.value.fields, "content"))
  }

  ghost predicate ValidChatParameter(v: Option<Json>) {
    && v.Some? && v.value.JObj?
    && var f := v.value.fields;
    && Field(f, "temperature").Some? && Field(f, "temperature").value.JNum?
    && ValidProvider(Field(f, "provider"))
    && IsStringType(Field(f, "model"))
    && Field(f, "messages").Some? && Field(f, "messages").value.JArr?
    && forall i :: 0 <= i < |f["messages"].items| ==> ValidMessage(Some(f["messages"].items[i]))
  }

  // ---- parsers ----

  /** Prefixes every issue's path with one segment, as nested schemas report them. */
  function Under(segment: PathSegment, issues: seq<Issue>): (r: seq<Issue>)
    ensures |r| == |issues|
  {
    if issues == [] then [] else [Issue([segment] + issues[0].path, issues[0].kind)] + Under(segment, issues[1..])
  }

  function ParseProvider(v: Option<Json>): (r: Result<Provider, seq<Issue>>)
    ensures r.Success? <==> ValidProvider(v)
    ensures r == Success(OpenAI) <==> v == Some(JStr("openai"))
    ensures r == Success(Ollama) <==> v == Some(JStr("ollama"))
    ensures r.Success? ==> v == Some(JStr(ProviderLiteral(r.value)))
    ensures r.Failure? ==> |r.error| == 1
  {
    match v
    case Some(JStr(s)) =>
      if s == "openai" then Success(OpenAI)
      else if s == "ollama" then Success(Ollama)
      else Failure([Issue([], InvalidEnumValue)])
    case _ => Failure([Issue([], InvalidType)])
  }

  function ParseMessage(v: Option<Json>): (r: Result<Message, seq<Issue>>)
    ensures r.Success? <==> ValidMessage(v)
    ensures r.Success? ==> v.value.fields["content"] == JStr(r.value.content)
    ensures r.Success? ==> v.value.fields["role"] == JStr(RoleLiteral(r.value.role))
    ensures r.Failure? ==> |r.error| == 1
  {
    if !(v.Some? && v.value.JObj?) then Failure([Issue([], InvalidType)])
    else
      var f := v.value.fields;
      var role := Field(f, "role");
      if !(role.Some? && role.value.JStr? && RoleOf(role.value.s).Some?) then
        Failure([Issue([Key("role")], InvalidUnionDiscriminator)])
      else
        var content := Field(f, "content");
        if !IsStringType(content) then Failure([Issue([Key("content")], InvalidType)])
        else Success(Message(RoleOf(role.value.s).value, content.value.s))
  }

  /** `z.array(Message)` over the elements of an array: issues of element i carry index i. */
  function ParseMessageItems(items: seq<Json>, offset: nat): (r: Result<seq<Message>, seq<Issue>>)
    ensures r.Success? <==> forall i :: 0 <= i < |items| ==> ValidMessage(Some(items[i]))
    ensures r.Success? ==> |r.value| == |items|
    ensures r.Success? ==> forall i :: 0 <= i < |items| ==> ParseMessage(Some(items[i])) == Success(r.value[i])
    ensures r.Failure? ==> r.error != []
    decreases |items|
  {
    if items == [] then Success([])
    else
      var head := ParseMessage(Some(items[0]));
      var tail := ParseMessageItems(items[1..], offset + 1);
      match (head, tail)
      case (Success(m), Success(ms)) => Success([m] + ms)
      case (Failure(e), Success(_)) => Failure(Under(Index(offset), e))
      case (Success(_), Failure(es)) => Failure(es)
      case (Failure(e), Failure(es)) => Failure(Under(Index(offset), e) + es)
  }

  function ParseMessages(v: Option<Json>): (r: Result<seq<Message>, seq<Issue>>)
    ensures r.Success? <==> v.Some? && v.value.JArr? && forall i :: 0 <= i < |v.value.items| ==> ValidMessage(Some(v.value.items[i]))
    ensures r.Success? ==> |r.value| == |v.value.items|
    ensures r.Success? ==> forall i :: 0 <= i < |v.value.items| ==> ParseMessage(Some(v.value.items[i])) == Success(r.value[i])
    ensures r.Failure? ==> r.error != []
  {
    if v.Some? && v.value.JArr? then ParseMessageItems(v.value.items, 0)
    else Failure([Issue([], InvalidType)])
  }

  function ParseNumber(v: Option<Json>): (r: Result<real, seq<Issue>>)
    ensures r.Success? <==> v.Some? && v.value.JNum?
    ensures r.Success? ==> v.value == JNum(r.value)
    ensures r.Failure? ==> r.error != []
  {
    if v.Some? && v.value.JNum? then Success(v.value.n) else Failure([Issue([], InvalidType)])
  }

  function ParseString(v: Option<Json>): (r: Result<string, seq<Issue>>)
    ensures r.Success? <==> IsStringType(v)
    ensures r.Success? ==> v.value == JStr(r.value)
    ensures r.Failure? ==> r.error != []
  {
    if IsStringType(v) then Success(v.value.s) else Failure([Issue([], InvalidType)])
  }

  function IssuesOf<T>(r: Result<T, seq<Issue>>): seq<Issue> {
    if r.Failure? then r.error else []
  }

  /** `OshaberiChatParameter.parse`: every field is checked and all issues are reported,
      in the schema's key order temperature, provider, model, messages. */
  function ParseChatParameter(v: Option<Json>): (r: Result<ChatParameter, seq<Issue>>)
    ensures r.Success? <==> ValidChatParameter(v)
    ensures r.Failure? ==> r.error != []
    ensures r.Success? ==> v.value.fields["model"] == JStr(r.value.model)
    ensures r.Success? ==> v.value.fields["temperature"] == JNum(r.value.temperature)
    ensures r.Success? ==> v.value.fields["provider"] == JStr(ProviderLiteral(r.value.provider))
    ensures r.Success? ==> |r.value.messages| == |v.value.fields["messages"].items|
    ensures r.Success? ==> forall i :: 0 <= i < |r.value.messages| ==>
              ParseMessage(Some(v.value.fields["messages"].items[i])) == Success(r.value.messages[i])
  {
    if !(v.Some? && v.value.JObj?) then Failure([Issue([], InvalidType)])
    else
      var f := v.value.fields;
      var temperature := ParseNumber(Field(f, "temperature"));
      var provider := ParseProvider(Field(f, "provider"));
      var model := ParseString(Field(f, "model"));
      var messages := ParseMessages(Field(f, "messages"));
      if temperature.Success? && provider.Success? && model.Success? && messages.Success? then
        Success(ChatParameter(temperature.value, provider.value, model.value, messages.value))
      else
        Failure(Under(Key("temperature"), IssuesOf(temperature))
              + Under(Key("provider"), IssuesOf(provider))
              + Under(Key("model"), IssuesOf(model))
              + Under(Key("messages"), IssuesOf(messages)))
  }

  /** `OshaberiListModelParameterSchema.parse`: only the provider is required. */
  function ParseListModelParameter(v: Option<Json>): (r: Result<ListModelParameter, seq<Issue>>)
    ensures r.Success? <==> v.Some? && v.value.JObj? && ValidProvider(Field(v.value.fields, "provider"))
    ensures r.Success? ==> v.value.fields["provider"] == JStr(ProviderLiteral(r.value.provider))
    ensures r.Failure? ==> r.error != []
  {
    if !(v.Some? && v.value.JObj?) then Failure([Issue([], InvalidType)])
    else
      match ParseProvider(Field(v.value.fields, "provider"))
      case Success(p) => Success(ListModelParameter(p))
      case Failure(e) => Failure(Under(Key("provider"), e))
  }

  // ---- encoders: the partner of each parser ----

  function EncodeMessage(m: Message): Json {
    JObj(map["role" := JStr(RoleLiteral(m.role)), "content" := JStr(m.content)])
  }

  function ProviderLiteral(p: Provider): string {
    match p
    case OpenAI => "openai"
    case Ollama => "ollama"
  }

  function EncodeChatParameter(p: ChatParameter): Json {
    JObj(map[
      "temperature" := JNum(p.temperature),
      "provider" := JStr(ProviderLiteral(p.provider)),
      "model" := JStr(p.model),
      "messages" := JArr(EncodeMessages(p.messages))])
  }

  function EncodeMessages(ms: seq<Message>): (items: seq<Json>)
    ensures |items| == |ms|
  {
    if ms == [] then [] else [EncodeMessage(ms[0])] + EncodeMessages(ms[1..])
  }

  lemma MessageRoundTrip(m: Message)
    ensures ParseMessage(Some(EncodeMessage(m))) == Success(m)
  {
    var f := EncodeMessage(m).fields;
    assert Field(f, "role") == Some(JStr(RoleLiteral(m.role)));
    assert RoleOf(RoleLiteral(m.role)) == Some(m.role);
  }

  lemma {:induction false} MessageItemsRoundTrip(ms: seq<Message>, offset: nat)
    ensures ParseMessageItems(EncodeMessages(ms), offset) == Success(ms)
  {
    var items := EncodeMessages(ms);
    if ms != [] {
      MessageRoundTrip(ms[0]);
      assert items[1..] == EncodeMessages(ms[1..]);
      MessageItemsRoundTrip(ms[1..], offset + 1);
      assert [ms[0]] + ms[1..] == ms;
    }
  }

  lemma ChatParameterRoundTrip(p: ChatParameter)
    ensures ParseChatParameter(Some(EncodeChatParameter(p))) == Success(p)
  {
    MessageItemsRoundTrip(p.messages, 0);
    var f := EncodeChatParameter(p).fields;
    assert Field(f, "messages") == Some(JArr(EncodeMessages(p.messages)));
    assert ParseNumber(Field(f, "temperature")) == Success(p.temperature);
    assert ParseProvider(Field(f, "provider")) == Success(p.provider);
    assert ParseString(Field(f, "model")) == Success(p.model);
    assert ParseMessages(Field(f, "messages")) == Success(p.messages);
  }

  /** A `function` message (or any role outside the union) is rejected. */
  lemma FunctionRoleRejected(content: string)
    ensures ParseMessage(Some(JObj(map["role" := JStr("function"), "content" := JStr(content)])))
         == Failure([Issue([Key("role")], InvalidUnionDiscriminator)])
  {
    assert RoleOf("function").None?;
  }
}

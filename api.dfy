/** The Hono API of server/src/api.ts. Body parsing failures and provider calls are
    parameters; `llmProvider.setModel`/`setTemperature` mutate a shared provider object
    and are represented only by the arguments handed to `predict`. */
module Api {
  import opened Wrappers
  import opened Json
  import opened ServerTypes
  import opened LangChain

  /** What reaches `onError`: a `ZodError` with its issue list, or any other error by its text. */
  datatype ApiError = ValidationError(issues: seq<Issue>) | OtherError(text: string)

  datatype ErrorEntry = IssueEntry(issue: Issue) | TextEntry(text: string)

  datatype Response =
    | ErrorResponse(status: nat, errors: seq<ErrorEntry>)
    | ChatReply(status: nat, content: string, role: string)
    | ModelList(status: nat, models: seq<string>)

  /** `api.onError`: every error becomes a 400; a validation error reports its issues,
      any other error a one-element list of its text. */
  function OnError(e: ApiError): (r: Response)
    ensures r.ErrorResponse? && r.status == 400
    ensures e.ValidationError? ==> |r.errors| == |e.issues|
    ensures e.ValidationError? ==> forall i :: 0 <= i < |e.issues| ==> r.errors[i] == IssueEntry(e.issues[i])
    ensures e.OtherError? ==> r.errors == [TextEntry(e.text)]
  {
    match e
    case ValidationError(issues) =>
      ErrorResponse(400, seq(|issues|, i requires 0 <= i < |issues| => IssueEntry(issues[i])))
    case OtherError(text) => ErrorResponse(400, [TextEntry(text)])
  }

  /** The provider call `getModel().predictMessages(messages)` after `setModel` and
      `setTemperature`: a reply text, or the error it throws. */
  type Predict = (Provider, string, real, seq<BaseMessage>) -> Result<string, ApiError>

  /** A provider's `getModelLists()`: the model names, or the error it throws (a
      `ZodError` when the Ollama tag list does not match its schema). */
  type ListModels = Provider -> Result<seq<string>, ApiError>

  /** `POST /chat`. `body` is `c.req.json()`: an unreadable body throws with its error text. */
  method Chat(body: Result<Json, string>, predict: Predict) returns (r: Response)
    ensures body.Failure? ==> r == OnError(OtherError(body.error))
    ensures body.Success? && !ValidChatParameter(Some(body.value)) ==>
              r == OnError(ValidationError(ParseChatParameter(Some(body.value)).error))
    ensures body.Success? && !ValidChatParameter(Some(body.value)) ==> r.errors != []
    ensures body.Success? && ValidChatParameter(Some(body.value)) ==>
              var p := ParseChatParameter(Some(body.value)).value;
              var reply := predict(p.provider, p.model, p.temperature, MapBase(Reordered(p.messages)));
              r == (if reply.Success? then ChatReply(200, reply.value, "assistant") else OnError(reply.error))
    ensures r.ChatReply? ==> r.role == "assistant" && r.status == 200
  {
    if body.Failure? {
      return OnError(OtherError(body.error));
    }
    var parsed := ParseChatParameter(Some(body.value));
    if parsed.Failure? {
      return OnError(ValidationError(parsed.error));
    }
    var p := parsed.value;
    var messages := ToLangChainMessages(p.messages);
    var reply := predict(p.provider, p.model, p.temperature, messages);
    if reply.Failure? {
      return OnError(reply.error);
    }
    r := ChatReply(200, reply.value, "assistant");
  }

  /** `GET /models?provider=…`: the query value must be a valid provider. */
  method Models(provider: Option<string>, listModels: ListModels) returns (r: Response)
    ensures provider.None? ==> r == ErrorResponse(400, [IssueEntry(Issue([], InvalidType))])
    ensures provider.Some? && provider.value !in {"openai", "ollama"} ==>
              r == ErrorResponse(400, [IssueEntry(Issue([], InvalidEnumValue))])
    ensures provider == Some("openai") ==>
              r == (if listModels(OpenAI).Success? then ModelList(200, listModels(OpenAI).value)
                    else OnError(listModels(OpenAI).error))
    ensures provider == Some("ollama") ==>
              r == (if listModels(Ollama).Success? then ModelList(200, listModels(Ollama).value)
                    else OnError(listModels(Ollama).error))
  {
    var query := if provider.Some? then Some(JStr(provider.value)) else None;
    var parsed := ParseProvider(query);
    if parsed.Failure? {
      return OnError(ValidationError(parsed.error));
    }
    var models := listModels(parsed.value);
    if models.Failure? {
      return OnError(models.error);
    }
    r := ModelList(200, models.value);
  }
}

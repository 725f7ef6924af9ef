/** The OpenAI router of server/src/routers/chatgpt.ts: `POST /` forwards a chat request,
    attaching the registered functions unless `useFunction` is falsy, and
    `POST /function` runs the function the assistant asked for and forwards the
    conversation with the function's result appended. */
module ChatGptRouter {
  import opened Wrappers
  import opened Json
  import opened ChatTypes
  import opened Registry
  import ServerFunctions

  const BadRequest: nat := 400
  const InternalError: nat := 500

  const NotFromAssistant := "The last message must be from the assistant."
  const NotAFunctionCall := "The last message must be a function call."

  /** A request body: the messages, the optional `useFunction` flag, any `functions` the
      client sent itself, and every other field (model, temperature, …), forwarded as is. */
  datatype ChatRequest = ChatRequest(
    messages: seq<ReqMessage>,
    useFunction: Option<Json>,
    functions: Option<seq<FunctionSchema>>,
    settings: map<string, Json>)

  /** The body handed to `openai.createChatCompletion`; it has no `useFunction` field. */
  datatype CompletionRequest = CompletionRequest(
    messages: seq<ReqMessage>,
    functions: Option<seq<FunctionSchema>>,
    settings: map<string, Json>)

  /** `const { useFunction = true } = req.body` followed by a truthiness test: the
      default applies only when the key is absent. */
  predicate UseFunctions(useFunction: Option<Json>): (b: bool)
    ensures useFunction.None? ==> b
    ensures useFunction.Some? ==> (b <==> Truthy(useFunction.value))
  {
    Truthy(useFunction.GetOr(JBool(true)))
  }

  lemma UseFunctionsDefault()
    ensures UseFunctions(None)
    ensures !UseFunctions(Some(JBool(false))) && !UseFunctions(Some(JNull))
    ensures UseFunctions(Some(JBool(true)))
  {
  }

  /** `POST /`: `{ ...body, ...(useFunction ? { functions } : {}) }` with `useFunction` stripped. */
  function ForwardChat(req: ChatRequest): (out: CompletionRequest)
    ensures out.messages == req.messages && out.settings == req.settings
    ensures UseFunctions(req.useFunction) ==> out.functions == Some(ServerFunctions.Functions())
    ensures !UseFunctions(req.useFunction) ==> out.functions == req.functions
  {
    CompletionRequest(
      req.messages,
      if UseFunctions(req.useFunction) then Some(ServerFunctions.Functions()) else req.functions,
      req.settings)
  }

  /** What the callback receives: the parsed arguments, or the raw string when parsing
      failed or produced `null` (`parsedArguments ?? argumentsFromOpenAI`). Missing
      arguments are parsed as "{}". */
  datatype CallbackArg = Parsed(json: Json) | Raw(text: Option<string>)

  function CallbackArgument(parse: string -> Option<Json>, arguments: Option<string>): (a: CallbackArg)
    ensures a.Parsed? <==> parse(arguments.GetOr("{}")).Some? && parse(arguments.GetOr("{}")).value != JNull
    ensures a.Parsed? ==> Some(a.json) == parse(arguments.GetOr("{}"))
    ensures a.Raw? ==> a.text == arguments
  {
    var parsed := parse(arguments.GetOr("{}"));
    if parsed.Some? && parsed.value != JNull then Parsed(parsed.value) else Raw(arguments)
  }

  /** A callback's outcome: its string result, or the error it threw (with an HTTP status
      when the error carries one). */
  datatype CallResult = Returned(value: string) | Threw(status: Option<nat>)

  datatype FunctionOutcome =
    /** `body.messages[length - 1].role` on an empty list throws outside the try block. */
    | Crashed
    | Rejected(status: nat, error: string)
    /** The request forwarded upstream, and the function message returned to the client. */
    | Called(request: CompletionRequest, functionMessage: ReqMessage)
    | CallFailed(status: nat)

  /** The checks of `POST /function`, in order, on the last message: from the assistant,
      a function call, and a registered function. */
  function Check(last: ReqMessage): (r: Option<string>)
    ensures r.None? <==> last.role == Assistant && last.functionCall.Some?
                         && FindIndex(ServerFunctions.FunctionLibraries, last.functionCall.value.name).Some?
    ensures last.role != Assistant ==> r == Some(NotFromAssistant)
    ensures last.role == Assistant && last.functionCall.None? ==> r == Some(NotAFunctionCall)
    ensures last.role == Assistant && last.functionCall.Some?
            && FindIndex(ServerFunctions.FunctionLibraries, last.functionCall.value.name).None? ==>
              r == Some("The function " + last.functionCall.value.name.GetOr("") + " does not exist.")
  {
    if last.role != Assistant then Some(NotFromAssistant)
    else if last.functionCall.None? then Some(NotAFunctionCall)
    else if FindIndex(ServerFunctions.FunctionLibraries, last.functionCall.value.name).None? then
      Some("The function " + last.functionCall.value.name.GetOr("") + " does not exist.")
    else None
  }

  /** The name of the function a passing message calls. */
  function CalledName(last: ReqMessage): (name: string)
    requires Check(last).None?
    ensures last.functionCall.value.name == Some(name)
    ensures name in {"get_location_by_ip_address", "tell_datetime"}
  {
    PassingCheckNamesRegisteredFunction(last);
    last.functionCall.value.name.value
  }

  /** The callback's outcome for a passing message. */
  function CallOutcome(last: ReqMessage, parse: string -> Option<Json>, invoke: (string, CallbackArg) -> CallResult): CallResult
    requires Check(last).None?
  {
    invoke(CalledName(last), CallbackArgument(parse, last.functionCall.value.arguments))
  }

  /** `POST /function`. `parse` is `JSON.parse` (`None` when it throws), `invoke` runs a
      registered callback by name, `stringify` is `JSON.stringify` on its string result.
      Only an absent (`undefined`) content of the last message is replaced by "". */
  method HandleFunction(
    req: ChatRequest,
    parse: string -> Option<Json>,
    invoke: (string, CallbackArg) -> CallResult,
    stringify: string -> string)
    returns (out: FunctionOutcome)
    ensures req.messages == [] <==> out.Crashed?
    ensures req.messages != [] && Check(req.messages[|req.messages| - 1]).Some? ==>
              out == Rejected(BadRequest, Check(req.messages[|req.messages| - 1]).value)
    ensures out.Rejected? ==> out.status == BadRequest
    ensures req.messages != [] && Check(req.messages[|req.messages| - 1]).None? ==>
              var result := CallOutcome(req.messages[|req.messages| - 1], parse, invoke);
              && (out.Called? <==> result.Returned?)
              && (out.CallFailed? <==> result.Threw?)
              && (result.Threw? ==> out.status == result.status.GetOr(InternalError))
    ensures out.Called? ==>
              var n := |req.messages|;
              var last := req.messages[n - 1];
              && n > 0 && Check(last).None?
              && out.functionMessage == ReqMessage(Function,
                   Str(stringify(CallOutcome(last, parse, invoke).value)), Some(CalledName(last)), None)
              && |out.request.messages| == n + 1
              && out.request.messages[..n - 1] == req.messages[..n - 1]
              && out.request.messages[n - 1] == (if last.content.Undefined? then last.(content := Str("")) else last)
              && out.request.messages[n] == out.functionMessage
              && out.request.functions == Some(ServerFunctions.Functions())
              && out.request.settings == req.settings
  {
    var messages := req.messages;
    if |messages| == 0 {
      return Crashed;
    }
    var n := |messages|;
    var lastMessage := messages[n - 1];
    var rejection := Check(lastMessage);
    if rejection.Some? {
      return Rejected(BadRequest, rejection.value);
    }
    var call := lastMessage.functionCall.value;
    var fn := ServerFunctions.FunctionLibraries[FindIndex(ServerFunctions.FunctionLibraries, call.name).value];
    assert fn.name == CalledName(lastMessage);
    if lastMessage.content.Undefined? {
      lastMessage := lastMessage.(content := Str(""));
      messages := messages[n - 1 := lastMessage];
    }
    var result := invoke(fn.name, CallbackArgument(parse, call.arguments));
    if result.Threw? {
      return CallFailed(result.status.GetOr(InternalError));
    }
    var functionMessage := ReqMessage(Function, Str(stringify(result.value)), call.name, None);
    messages := messages + [functionMessage];
    out := Called(CompletionRequest(messages, Some(ServerFunctions.Functions()), req.settings), functionMessage);
  }

  /** A message that passes the checks names one of the two registered functions. */
  lemma PassingCheckNamesRegisteredFunction(last: ReqMessage)
    requires Check(last).None?
    ensures last.functionCall.value.name.Some?
    ensures last.functionCall.value.name.value in {"get_location_by_ip_address", "tell_datetime"}
  {
    var i := FindIndex(ServerFunctions.FunctionLibraries, last.functionCall.value.name).value;
    assert i == 0 || i == 1;
  }
}

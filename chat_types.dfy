/** The OpenAI chat message shapes the client and the server exchange, and the client's
    display entry (`ChatMessage<T>` of client/src/lib/types/chat.ts). */
module ChatTypes {
  import opened Wrappers

  datatype Role = System | User | Assistant | Function

  /** The role as the string the wire format and the display entry's `user` field carry. */
  function RoleName(r: Role): (s: string)
    ensures s in {"system", "user", "assistant", "function"}
  {
    match r
    case System => "system"
    case User => "user"
    case Assistant => "assistant"
    case Function => "function"
  }

  lemma RoleNameInjective(a: Role, b: Role)
    ensures RoleName(a) == RoleName(b) <==> a == b
  {
  }

  /** `ChatCompletionRequestMessageFunctionCall`: both members are optional. */
  datatype FunctionCall = FunctionCall(name: Option<string>, arguments: Option<string>)

  /** A request message's `content`: absent (`undefined`), `null`, or a string. An
      assistant message that calls a function carries `null`. */
  datatype Content = Undefined | Null | Str(s: string)

  /** `ChatCompletionRequestMessage`: content, name and function_call are optional. */
  datatype ReqMessage = ReqMessage(
    role: Role,
    content: Content,
    name: Option<string>,
    functionCall: Option<FunctionCall>)

  /** One entry of a client session: the rendered text, who said it, and the raw message. */
  datatype ChatMessage = ChatMessage(
    message: string,
    user: string,
    isHTML: Option<bool>,
    value: ReqMessage,
    hide: Option<bool>)

  /** `ChatCompletionResponseMessage` as far as the client reads it. */
  datatype RespMessage = RespMessage(role: Option<Role>, content: Option<string>, functionCall: Option<FunctionCall>)

  datatype Choice = Choice(message: Option<RespMessage>)

  /** `CreateChatCompletionResponse`: only `choices` is read. */
  datatype CompletionResponse = CompletionResponse(choices: seq<Choice>)
}

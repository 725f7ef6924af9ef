/** `tokenLength` of server/src/chatgpt.ts. The same function appears verbatim in
    server/src/routers/chatgpt.ts; both have no single-message mode. */
module ServerChatGpt {
  import opened ChatTypes
  import opened TokenCounter

  method TokenLength(tok: Tokenizer, input: TokenInput) returns (n: nat)
    ensures input.Text? ==> n == tok(input.text)
    ensures input.Messages? ==> n == 3 + SumTokens(tok, input.messages)
    ensures input.Messages? ==> n >= 3 + 4 * |input.messages|
    ensures input == Messages([]) ==> n == 3
  {
    match input
    case Text(s) =>
      n := tok(s);
    case Messages(ms) =>
      n := CountMessages(tok, ms);
      ListTokensFacts(tok, ms);
  }

  /** Without the single-message flag the client and the server agree on every input. */
  method AgreesWithClient(tok: Tokenizer, input: TokenInput) returns (server: nat, client: nat)
    ensures server == client
  {
    server := TokenLength(tok, input);
    client := TokenCounter.TokenLength(tok, input, false);
  }
}

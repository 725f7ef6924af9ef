/** Token accounting (client/src/hooks/useTokenCalculator.ts). The BPE tokenizer is
    foreign: `tok` stands for `tokenizer.encode(s).length`. A message list costs 4 tokens
    per message plus the tokens of its content, and 3 more for the list as a whole. */
module TokenCounter {
  import opened Wrappers
  import opened ChatTypes

  type Tokenizer = string -> nat

  const TokensPerMessage: nat := 4
  const ListOverhead: nat := 3

  /** `message.content ?? ''`: both `undefined` and `null` count as the empty string. */
  function ContentOrEmpty(m: ReqMessage): (s: string)
    ensures m.content.Str? ==> s == m.content.s
    ensures !m.content.Str? ==> s == ""
  {
    if m.content.Str? then m.content.s else ""
  }

  /** The cost of one message inside a list. */
  function MessageTokens(tok: Tokenizer, m: ReqMessage): nat {
    TokensPerMessage + tok(ContentOrEmpty(m))
  }

  /** The sum of the per-message costs, reference definition of the accumulator loop. */
  function SumTokens(tok: Tokenizer, ms: seq<ReqMessage>): nat {
    if ms == [] then 0 else MessageTokens(tok, ms[0]) + SumTokens(tok, ms[1..])
  }

  /** What `tokenLength(list)` returns. */
  function ListTokens(tok: Tokenizer, ms: seq<ReqMessage>): nat {
    SumTokens(tok, ms) + ListOverhead
  }

  /** Appending one message raises the sum by exactly that message's cost. */
  lemma {:induction false} SumTokensAppend(tok: Tokenizer, ms: seq<ReqMessage>, m: ReqMessage)
    ensures SumTokens(tok, ms + [m]) == SumTokens(tok, ms) + TokensPerMessage + tok(ContentOrEmpty(m))
  {
    if ms != [] {
      assert (ms + [m])[1..] == ms[1..] + [m];
      SumTokensAppend(tok, ms[1..], m);
    } else {
      assert (ms + [m])[1..] == [];
    }
  }

  /** The sum over a concatenation is the sum of the sums. */
  lemma {:induction false} SumTokensConcat(tok: Tokenizer, a: seq<ReqMessage>, b: seq<ReqMessage>)
    ensures SumTokens(tok, a + b) == SumTokens(tok, a) + SumTokens(tok, b)
  {
    if a != [] {
      assert (a + b)[1..] == a[1..] + b;
      SumTokensConcat(tok, a[1..], b);
    } else {
      assert a + b == b;
    }
  }

  /** Every message costs at least its fixed overhead. */
  lemma {:induction false} SumTokensLowerBound(tok: Tokenizer, ms: seq<ReqMessage>)
    ensures SumTokens(tok, ms) >= TokensPerMessage * |ms|
  {
    if ms != [] {
      SumTokensLowerBound(tok, ms[1..]);
    }
  }

  /** Two message lists with the same contents cost the same, whatever their roles. */
  lemma {:induction false} SumTokensOnlyContents(tok: Tokenizer, a: seq<ReqMessage>, b: seq<ReqMessage>)
    requires |a| == |b|
    requires forall i :: 0 <= i < |a| ==> ContentOrEmpty(a[i]) == ContentOrEmpty(b[i])
    ensures SumTokens(tok, a) == SumTokens(tok, b)
  {
    if a != [] {
      SumTokensOnlyContents(tok, a[1..], b[1..]);
    }
  }

  /** `tokenLength` of a list: the list cost, its empty case, its lower bound and its
      one-element case (single-message cost plus the list overhead). */
  lemma ListTokensFacts(tok: Tokenizer, ms: seq<ReqMessage>)
    ensures ListTokens(tok, []) == 3
    ensures ListTokens(tok, ms) >= 3 + 4 * |ms|
    ensures |ms| == 1 ==> ListTokens(tok, ms) == MessageTokens(tok, ms[0]) + 3
  {
    SumTokensLowerBound(tok, ms);
    if |ms| == 1 {
      assert ms[1..] == [];
    }
  }

  /** Appending a message to a list raises `tokenLength` by 4 plus its content's tokens. */
  lemma ListTokensAppend(tok: Tokenizer, ms: seq<ReqMessage>, m: ReqMessage)
    ensures ListTokens(tok, ms + [m]) == ListTokens(tok, ms) + 4 + tok(ContentOrEmpty(m))
  {
    SumTokensAppend(tok, ms, m);
  }

  /** The accumulator loop of `tokenLength` over a list. */
  method CountMessages(tok: Tokenizer, messages: seq<ReqMessage>) returns (totalTokens: nat)
    ensures totalTokens == ListTokens(tok, messages)
  {
    totalTokens := 0;
    for i := 0 to |messages|
      invariant totalTokens == SumTokens(tok, messages[..i])
    {
      assert messages[..i + 1] == messages[..i] + [messages[i]];
      SumTokensAppend(tok, messages[..i], messages[i]);
      totalTokens := totalTokens + TokensPerMessage;
      totalTokens := totalTokens + tok(ContentOrEmpty(messages[i]));
    }
    assert messages[..|messages|] == messages;
    totalTokens := totalTokens + ListOverhead;
  }

  /** `string | ChatCompletionRequestMessage[]` */
  datatype TokenInput = Text(text: string) | Messages(messages: seq<ReqMessage>)

  /** The client's `tokenLength(messages, calculateSingleMessage)`. In single-message mode
      only the first element counts and the list overhead is not added; the source reads
      `messages[0].content`, which throws on an empty list. */
  method TokenLength(tok: Tokenizer, input: TokenInput, calculateSingleMessage: bool) returns (n: nat)
    requires input.Messages? && calculateSingleMessage ==> |input.messages| > 0
    ensures input.Text? ==> n == tok(input.text)
    ensures input.Messages? && calculateSingleMessage ==>
              n == 4 + tok(ContentOrEmpty(input.messages[0]))
    ensures input.Messages? && !calculateSingleMessage ==>
              n == 3 + SumTokens(tok, input.messages)
  {
    match input
    case Text(s) =>
      n := tok(s);
    case Messages(ms) =>
      if calculateSingleMessage {
        n := TokensPerMessage + tok(ContentOrEmpty(ms[0]));
      } else {
        n := CountMessages(tok, ms);
      }
  }

  /** Decimal digits of a natural number, as a template literal renders it. */
  function NatToString(n: nat): (s: string)
    ensures |s| > 0
    ensures forall i :: 0 <= i < |s| ==> '0' <= s[i] <= '9'
    ensures s[0] == '0' ==> n == 0
    ensures s[0] == '0' ==> s == "0"
  {
    if n < 10 then [DigitChar(n)] else NatToString(n / 10) + [DigitChar(n % 10)]
  }

  function DigitChar(d: nat): (c: char)
    requires d < 10
    ensures '0' <= c <= '9'
    ensures c == '0' <==> d == 0
  {
    ['0', '1', '2', '3', '4', '5', '6', '7', '8', '9'][d]
  }

  function DigitValue(c: char): nat
    requires '0' <= c <= '9'
  {
    (c as int - '0' as int) as nat
  }

  /** Reads a string of decimal digits back as a number. */
  function ParseDecimal(s: string): nat
    requires forall i :: 0 <= i < |s| ==> '0' <= s[i] <= '9'
  {
    if s == [] then 0 else 10 * ParseDecimal(s[..|s| - 1]) + DigitValue(s[|s| - 1])
  }

  lemma {:induction false} DecimalRoundTrip(n: nat)
    ensures ParseDecimal(NatToString(n)) == n
  {
    var s := NatToString(n);
    if n >= 10 {
      DecimalRoundTrip(n / 10);
      assert s[..|s| - 1] == NatToString(n / 10);
      assert DigitValue(s[|s| - 1]) == n % 10;
    } else {
      assert DigitValue(DigitChar(n)) == n;
    }
  }

  /** `tokenCountDisplay`: the count followed by " tokens". */
  function TokenCountDisplay(tokenCount: nat): (r: string)
    ensures |r| > 7 && r[|r| - 7..] == " tokens"
    ensures forall i :: 0 <= i < |r| - 7 ==> '0' <= r[i] <= '9'
    ensures ParseDecimal(r[..|r| - 7]) == tokenCount
    ensures r[0] == '0' ==> tokenCount == 0
    ensures r[0] == '0' ==> r == "0 tokens"
  {
    var digits := NatToString(tokenCount);
    DecimalRoundTrip(tokenCount);
    assert (digits + " tokens")[..|digits|] == digits;
    digits + " tokens"
  }
}

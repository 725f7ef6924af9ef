/** `toLangChainMessages` (server/src/lib/message.ts): user and assistant messages are
    pushed in order, and each system message is put in front of everything converted so
    far, so the system messages end up first and in reverse input order. */
module LangChain {
  import opened ServerTypes

  datatype BaseMessage = HumanMessage(content: string) | AIMessage(content: string) | SystemMessage(content: string)

  /** The LangChain class each role becomes; content is carried over unchanged. */
  function ToBase(m: Message): (b: BaseMessage)
    ensures b.content == m.content
    ensures m.role == UserRole <==> b.HumanMessage?
    ensures m.role == AssistantRole <==> b.AIMessage?
    ensures m.role == SystemRole <==> b.SystemMessage?
  {
    match m.role
    case UserRole => HumanMessage(m.content)
    case AssistantRole => AIMessage(m.content)
    case SystemRole => SystemMessage(m.content)
  }

  function MapBase(ms: seq<Message>): (bs: seq<BaseMessage>)
    ensures |bs| == |ms|
    ensures forall i :: 0 <= i < |ms| ==> bs[i] == ToBase(ms[i])
  {
    seq(|ms|, i requires 0 <= i < |ms| => ToBase(ms[i]))
  }

  /** The system messages of a list, in input order. */
  function SystemsOf(ms: seq<Message>): seq<Message> {
    if ms == [] then []
    else (if ms[0].role == SystemRole then [ms[0]] else []) + SystemsOf(ms[1..])
  }

  /** The user and assistant messages of a list, in input order. */
  function ChatOf(ms: seq<Message>): seq<Message> {
    if ms == [] then []
    else (if ms[0].role != SystemRole then [ms[0]] else []) + ChatOf(ms[1..])
  }

  function Reverse<T>(s: seq<T>): (r: seq<T>)
    ensures |r| == |s|
    ensures forall k :: 0 <= k < |s| ==> r[k] == s[|s| - 1 - k]
  {
    if s == [] then [] else Reverse(s[1..]) + [s[0]]
  }

  /** The order the conversion produces: system messages reversed, then the rest in order. */
  function Reordered(ms: seq<Message>): seq<Message> {
    Reverse(SystemsOf(ms)) + ChatOf(ms)
  }

  lemma {:induction false} SystemsOfAppend(ms: seq<Message>, m: Message)
    ensures SystemsOf(ms + [m]) == SystemsOf(ms) + (if m.role == SystemRole then [m] else [])
  {
    if ms == [] {
      assert (ms + [m])[1..] == [];
    } else {
      assert (ms + [m])[1..] == ms[1..] + [m];
      SystemsOfAppend(ms[1..], m);
    }
  }

  lemma {:induction false} ChatOfAppend(ms: seq<Message>, m: Message)
    ensures ChatOf(ms + [m]) == ChatOf(ms) + (if m.role != SystemRole then [m] else [])
  {
    if ms == [] {
      assert (ms + [m])[1..] == [];
    } else {
      assert (ms + [m])[1..] == ms[1..] + [m];
      ChatOfAppend(ms[1..], m);
    }
  }

  lemma {:induction false} SystemsOfAreSystem(ms: seq<Message>)
    ensures forall i :: 0 <= i < |SystemsOf(ms)| ==> SystemsOf(ms)[i].role == SystemRole
  {
    if ms != [] {
      SystemsOfAreSystem(ms[1..]);
    }
  }

  lemma {:induction false} ChatOfAreNotSystem(ms: seq<Message>)
    ensures forall i :: 0 <= i < |ChatOf(ms)| ==> ChatOf(ms)[i].role != SystemRole
  {
    if ms != [] {
      ChatOfAreNotSystem(ms[1..]);
    }
  }

  /** Every message goes to exactly one of the two parts. */
  lemma {:induction false} PartsPartition(ms: seq<Message>)
    ensures multiset(SystemsOf(ms)) + multiset(ChatOf(ms)) == multiset(ms)
  {
    if ms != [] {
      PartsPartition(ms[1..]);
      assert ms == [ms[0]] + ms[1..];
    }
  }

  lemma {:induction false} ReverseMultiset<T>(s: seq<T>)
    ensures multiset(Reverse(s)) == multiset(s)
  {
    if s != [] {
      ReverseMultiset(s[1..]);
      assert s == [s[0]] + s[1..];
    }
  }

  lemma MapBasePush(s: seq<Message>, m: Message)
    ensures MapBase(s + [m]) == MapBase(s) + [ToBase(m)]
  {
  }

  lemma MapBasePrepend(s: seq<Message>, m: Message)
    ensures MapBase([m] + s) == [ToBase(m)] + MapBase(s)
  {
  }

  /** One more input message: a system message goes in front, any other at the end. */
  lemma ReorderedStep(ms: seq<Message>, m: Message)
    ensures m.role == SystemRole ==> Reordered(ms + [m]) == [m] + Reordered(ms)
    ensures m.role != SystemRole ==> Reordered(ms + [m]) == Reordered(ms) + [m]
  {
    SystemsOfAppend(ms, m);
    ChatOfAppend(ms, m);
    var sys := SystemsOf(ms);
    if m.role == SystemRole {
      assert Reverse(sys + [m]) == [m] + Reverse(sys);
    }
  }

  /** The loop of `toLangChainMessages`. */
  method ToLangChainMessages(messages: seq<Message>) returns (result: seq<BaseMessage>)
    ensures result == MapBase(Reordered(messages))
  {
    result := [];
    for i := 0 to |messages|
      invariant result == MapBase(Reordered(messages[..i]))
    {
      var m := messages[i];
      ReorderedStep(messages[..i], m);
      assert messages[..i + 1] == messages[..i] + [m];
      if m.role == UserRole {
        MapBasePush(Reordered(messages[..i]), m);
        result := result + [HumanMessage(m.content)];
      } else if m.role == AssistantRole {
        MapBasePush(Reordered(messages[..i]), m);
        result := result + [AIMessage(m.content)];
      } else {
        MapBasePrepend(Reordered(messages[..i]), m);
        result := [SystemMessage(m.content)] + result;
      }
    }
    assert messages[..|messages|] == messages;
  }

  /** The conversion neither drops nor adds messages, and contents are a permutation of
      the input's. */
  lemma ConversionPreservesMessages(ms: seq<Message>)
    ensures |MapBase(Reordered(ms))| == |ms|
    ensures multiset(Reordered(ms)) == multiset(ms)
  {
    PartsPartition(ms);
    ReverseMultiset(SystemsOf(ms));
    assert |multiset(Reordered(ms))| == |multiset(ms)|;
  }

  /** Exactly the first |systems| entries of the result are system messages. */
  lemma {:induction false} SystemsComeFirst(ms: seq<Message>, k: nat)
    requires k < |Reordered(ms)|
    ensures MapBase(Reordered(ms))[k].SystemMessage? <==> k < |SystemsOf(ms)|
  {
    SystemsOfAreSystem(ms);
    ChatOfAreNotSystem(ms);
    var s := |SystemsOf(ms)|;
    if k < s {
      assert Reordered(ms)[k] == SystemsOf(ms)[s - 1 - k];
    } else {
      assert Reordered(ms)[k] == ChatOf(ms)[k - s];
    }
  }

  /** The k-th system message of the result is the k-th from last of the input. */
  lemma SystemsReversed(ms: seq<Message>, k: nat)
    requires k < |SystemsOf(ms)|
    ensures MapBase(Reordered(ms))[k] == SystemMessage(SystemsOf(ms)[|SystemsOf(ms)| - 1 - k].content)
  {
    SystemsOfAreSystem(ms);
  }

  /** After the system messages come the user and assistant messages, in input order. */
  lemma ChatKeepsOrder(ms: seq<Message>, k: nat)
    requires k < |ChatOf(ms)|
    ensures MapBase(Reordered(ms))[|SystemsOf(ms)| + k] == ToBase(ChatOf(ms)[k])
  {
  }
}

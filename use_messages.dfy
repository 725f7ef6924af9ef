/** The `useMessages` hook (client/src/hooks/useMessages.ts): the selected session's
    list as a read/write value, the outbound message list, and the live token count. */
module UseMessages {
  import opened Wrappers
  import opened ChatTypes
  import opened TokenCounter
  import opened Stores

  /** `systemMessage`: one system message when the session's system text is non-empty. */
  function SystemMessage(system: string): (r: seq<ReqMessage>)
    ensures system == "" <==> r == []
    ensures system != "" ==> r == [ReqMessage(System, Str(system), None, None)]
  {
    if system != "" then [ReqMessage(System, Str(system), None, None)] else []
  }

  function Values(entries: seq<ChatMessage>): (r: seq<ReqMessage>)
    ensures |r| == |entries|
    ensures forall i :: 0 <= i < |entries| ==> r[i] == entries[i].value
  {
    seq(|entries|, i requires 0 <= i < |entries| => entries[i].value)
  }

  /** `messagesToSend`: the system message, if any, then each entry's raw message in order. */
  function MessagesToSend(system: string, entries: seq<ChatMessage>): (r: seq<ReqMessage>)
    ensures |r| == |entries| + (if system == "" then 0 else 1)
    ensures system != "" ==> r[0] == ReqMessage(System, Str(system), None, None)
  {
    SystemMessage(system) + Values(entries)
  }

  /** After the system message, if any, the outbound list is exactly the entries' raw
      messages (`Values` gives them element by element). Kept out of `MessagesToSend`'s
      own contract, where it keeps instantiating itself against `Values` in every caller. */
  lemma MessagesToSendEntries(system: string, entries: seq<ChatMessage>)
    ensures var r := MessagesToSend(system, entries);
            r[|r| - |entries|..] == Values(entries)
  {
    var sys, vs := SystemMessage(system), Values(entries);
    assert (sys + vs)[|sys|..] == vs;
  }

  /** `tokenCount = tokenLength(messagesToSend)`: the list overhead, the system message's
      cost when there is one, and the cost of every entry's raw message. */
  function TokenCount(tok: Tokenizer, system: string, entries: seq<ChatMessage>): (n: nat)
    ensures n == 3 + (if system == "" then 0 else 4 + tok(system)) + SumTokens(tok, Values(entries))
  {
    SumTokensConcat(tok, SystemMessage(system), Values(entries));
    SystemMessageTokens(tok, system);
    ListTokens(tok, MessagesToSend(system, entries))
  }

  lemma SystemMessageTokens(tok: Tokenizer, system: string)
    ensures SumTokens(tok, SystemMessage(system)) == (if system == "" then 0 else 4 + tok(system))
  {
    if system != "" {
      assert SystemMessage(system)[1..] == [];
    }
  }

  /** The entry `sendMessage(text)` appends. */
  function UserEntry(text: string): ChatMessage {
    ChatMessage(text, "user", Some(true), ReqMessage(User, Str(text), None, None), None)
  }

  /** `currentMessageTokenLength`: the count so far plus, when something is typed, that
      text as one more message (single-message mode, so no second list overhead). */
  function CurrentMessageTokenLength(tok: Tokenizer, system: string, entries: seq<ChatMessage>, pending: string): (n: nat)
    ensures pending == "" ==> n == TokenCount(tok, system, entries)
    ensures pending != "" ==> n == TokenCount(tok, system, entries) + 4 + tok(pending)
  {
    (if pending == "" then 0 else MessageTokens(tok, ReqMessage(User, Str(pending), None, None)))
      + TokenCount(tok, system, entries)
  }

  /** The live count while typing equals the count once the typed text is sent. */
  lemma PendingCountMatchesSent(tok: Tokenizer, system: string, entries: seq<ChatMessage>, pending: string)
    requires pending != ""
    ensures CurrentMessageTokenLength(tok, system, entries, pending) == TokenCount(tok, system, entries + [UserEntry(pending)])
  {
    assert Values(entries + [UserEntry(pending)]) == Values(entries) + [UserEntry(pending).value];
    SumTokensAppend(tok, Values(entries), UserEntry(pending).value);
  }

  /** The hook over one session store: `messages` reads and writes the selected
      session's list, `currentMessage` is the pending input. */
  class MessagesHook {
    const store: ChatSessionStore
    var currentMessage: string

    constructor (store: ChatSessionStore)
      ensures this.store == store && currentMessage == ""
    {
      this.store := store;
      currentMessage := "";
    }

    /** The `messages` getter. */
    function Messages(): (ms: seq<ChatMessage>)
      reads this, store
      requires store.Valid()
      ensures ms == store.GetSelectedSession().messages
    {
      store.sessions[store.selected].messages
    }

    /** The `messages` setter: only the selected session's list changes. */
    method SetMessages(value: seq<ChatMessage>)
      requires store.Valid()
      modifies store
      ensures store.Valid() && Messages() == value
      ensures store.selected == old(store.selected)
      ensures store.sessions == WithMessages(old(store.sessions), store.selected, value)
    {
      store.SetMessagesToSelectedSession(value);
    }

    /** `clearChat` empties the selected session through the setter. */
    method ClearChat()
      requires store.Valid()
      modifies store
      ensures store.Valid() && Messages() == []
      ensures store.selected == old(store.selected)
      ensures store.sessions == WithMessages(old(store.sessions), store.selected, [])
    {
      SetMessages([]);
    }
  }
}

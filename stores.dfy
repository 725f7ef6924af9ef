/** The pinia stores of client/src/store.ts (the settings store is also the whole of
    src/store.ts), and the `useChatSession` store the client hooks read, whose definition
    is not part of this model: it is given here the shape of `useSavedMessages`, one
    system text and one message list per session key. */
module Stores {
  import opened Wrappers
  import opened ChatTypes

  const SupportedModels: seq<string> := ["gpt-3.5-turbo", "gpt-3.5-turbo-16k", "gpt-4"]

  /** `supportedModels.includes(model)` */
  predicate IsSupportedModel(model: string) {
    model in SupportedModels
  }

  lemma SupportedModelsExactly(model: string)
    ensures IsSupportedModel(model) <==> model == "gpt-3.5-turbo" || model == "gpt-3.5-turbo-16k" || model == "gpt-4"
  {
  }

  /** The error `setModel` throws. */
  datatype SettingError = ModelNotSupported(message: string)

  function NotSupportedMessage(model: string): (m: string)
    ensures |m| == |model| + 23
    ensures m[..6] == "Model " && m[|m| - 17..] == " is not supported"
    ensures m[6..|m| - 17] == model
  {
    "Model " + model + " is not supported"
  }

  /** `useChatGPTSetting`. The numeric settings are JavaScript numbers; they are `real`
      here (no rounding, NaN or infinities). */
  class ChatGPTSetting {
    var temperature: real
    var maxTokens: real
    var model: string
    var presencePenalty: real
    var frequencyPenalty: real
    var system: string

    /** The model is always one of the supported ones. */
    ghost predicate Valid()
      reads this
    {
      IsSupportedModel(model)
    }

    constructor ()
      ensures Valid()
      ensures temperature == 1.0 && maxTokens == 1024.0 && model == "gpt-3.5-turbo"
      ensures presencePenalty == 0.0 && frequencyPenalty == 0.0 && system == ""
    {
      temperature := 1.0;
      maxTokens := 1024.0;
      model := "gpt-3.5-turbo";
      presencePenalty := 0.0;
      frequencyPenalty := 0.0;
      system := "";
    }

    method SetTemperature(t: real)
      modifies this
      ensures temperature == t
      ensures maxTokens == old(maxTokens) && model == old(model) && system == old(system)
      ensures presencePenalty == old(presencePenalty) && frequencyPenalty == old(frequencyPenalty)
    {
      temperature := t;
    }

    method SetMaxTokens(n: real)
      modifies this
      ensures maxTokens == n
      ensures temperature == old(temperature) && model == old(model) && system == old(system)
      ensures presencePenalty == old(presencePenalty) && frequencyPenalty == old(frequencyPenalty)
    {
      maxTokens := n;
    }

    /** Accepts exactly the supported models; any other name throws and changes nothing. */
    method SetModel(name: string) returns (r: Option<SettingError>)
      requires Valid()
      modifies this
      ensures Valid()
      ensures r.None? <==> IsSupportedModel(name)
      ensures r.None? ==> model == name
      ensures r.Some? ==> model == old(model) && r.value == ModelNotSupported(NotSupportedMessage(name))
      ensures temperature == old(temperature) && maxTokens == old(maxTokens) && system == old(system)
      ensures presencePenalty == old(presencePenalty) && frequencyPenalty == old(frequencyPenalty)
    {
      if !IsSupportedModel(name) {
        return Some(ModelNotSupported(NotSupportedMessage(name)));
      }
      model := name;
      r := None;
    }
  }

  /** `useSavedMessages`: message lists by key, and the selected key. */
  class SavedMessages {
    var messages: map<string, seq<ChatMessage>>
    var selected: string

    constructor ()
      ensures messages == map["default" := []] && selected == "default"
    {
      messages := map["default" := []];
      selected := "default";
    }

    /** `Object.keys(this.messages)`: every key once (in no particular order here). */
    method GetKeys() returns (keys: seq<string>)
      ensures forall k :: k in keys <==> k in messages
      ensures forall i, j :: 0 <= i < j < |keys| ==> keys[i] != keys[j]
      ensures |keys| == |messages|
    {
      keys := [];
      var rest := messages.Keys;
      while rest != {}
        invariant rest <= messages.Keys
        invariant forall k :: k in keys <==> k in messages && k !in rest
        invariant forall i, j :: 0 <= i < j < |keys| ==> keys[i] != keys[j]
        invariant |keys| + |rest| == |messages.Keys|
        decreases rest
      {
        var k :| k in rest;
        keys := keys + [k];
        rest := rest - {k};
      }
      assert |messages.Keys| == |messages|;
    }

    /** `this.messages[this.selected]`, undefined when the selected key has no list. */
    function GetSelected(): (r: Option<seq<ChatMessage>>)
      reads this
      ensures r.Some? <==> selected in messages
      ensures r.Some? ==> r.value == messages[selected]
    {
      if selected in messages then Some(messages[selected]) else None
    }

    /** No existence check: afterwards `GetSelected` is absent when the key has no list. */
    method SelectChat(key: string)
      modifies this
      ensures selected == key && messages == old(messages)
      ensures GetSelected().Some? <==> key in messages
    {
      selected := key;
    }

    /** Replaces (or creates) only the selected key's list. */
    method SetSelectedMessages(ms: seq<ChatMessage>)
      modifies this
      ensures selected == old(selected)
      ensures messages == old(messages)[selected := ms]
      ensures forall k :: k in old(messages) && k != selected ==> k in messages && messages[k] == old(messages)[k]
    {
      messages := messages[selected := ms];
    }

    /** Appends one message to `key`'s list, creating an empty list first when absent. */
    method AddMessage(key: string, message: ChatMessage)
      modifies this
      ensures selected == old(selected)
      ensures key in messages
      ensures messages[key] == (if key in old(messages) then old(messages)[key] else []) + [message]
      ensures |messages[key]| == (if key in old(messages) then |old(messages)[key]| else 0) + 1
      ensures messages.Keys == old(messages).Keys + {key}
      ensures forall k :: k in old(messages) && k != key ==> messages[k] == old(messages)[k]
    {
      if key !in messages {
        messages := messages[key := []];
      }
      messages := messages[key := messages[key] + [message]];
    }
  }

  /** One conversation of `useChatSession`. */
  datatype Session = Session(system: string, messages: seq<ChatMessage>)

  /** The session map with only `key`'s message list replaced. */
  function WithMessages(sessions: map<string, Session>, key: string, ms: seq<ChatMessage>): (r: map<string, Session>)
    requires key in sessions
    ensures r.Keys == sessions.Keys
    ensures r[key] == Session(sessions[key].system, ms)
    ensures forall k :: k in sessions && k != key ==> r[k] == sessions[k]
  {
    sessions[key := sessions[key].(messages := ms)]
  }

  /** The `useChatSession` store as the hooks use it. Its selected key is assumed to name
      an existing session. */
  class ChatSessionStore {
    var sessions: map<string, Session>
    var selected: string

    ghost predicate Valid()
      reads this
    {
      selected in sessions
    }

    constructor (sessions: map<string, Session>, selected: string)
      requires selected in sessions
      ensures Valid() && this.sessions == sessions && this.selected == selected
    {
      this.sessions := sessions;
      this.selected := selected;
    }

    /** `getSelectedSession`: the session stored under the selected key, which the
        invariant guarantees is one of the stored sessions. */
    function GetSelectedSession(): (s: Session)
      reads this
      requires Valid()
      ensures s in sessions.Values
    {
      sessions[selected]
    }

    /** `getCurrentSystemMessage`: the selected session's system text. */
    function GetCurrentSystemMessage(): (s: string)
      reads this
      requires Valid()
      ensures s == GetSelectedSession().system
    {
      sessions[selected].system
    }

    /** `setMessagesToSelectedSession`: replaces only the selected session's list. */
    method SetMessagesToSelectedSession(ms: seq<ChatMessage>)
      requires Valid()
      modifies this
      ensures Valid() && selected == old(selected)
      ensures sessions == WithMessages(old(sessions), selected, ms)
    {
      sessions := WithMessages(sessions, selected, ms);
    }
  }
}

/** Properties of whole conversations: several events in a row, and every
    sequence of events from the empty collections. */
module Flows {
  import opened Optional
  import opened Text
  import opened Sessions
  import opened Agents
  import opened Bot
  import opened Dispatch

  /** The "Create Agent" button, then a name, then instructions: exactly
      one agent is appended, holding that name and those instructions and no
      messages, and the user is back in no state with no pending name. This
      holds with or without an earlier document for the user, and whatever
      agents (of the same name or not) the store already holds. These are
      handler events; `CreateFlowDelivered` states the flow for whole
      messages, which also reach a pattern handler when they begin with a
      command. */
  lemma CreateFlow(s: SessionMap, st: Store, u: UserId, name: string, instructions: string, ai: string -> string)
    ensures
      var o1 := Step(s, st, u, Callback(CreateAgentData), ai);
      var o2 := Step(o1.sessions, o1.store, u, Message(name), ai);
      var o3 := Step(o2.sessions, o2.store, u, Message(instructions), ai);
      && o3.store == st + [Agent(u, name, instructions, [])]
      && u in o3.sessions && o3.sessions[u].state.None? && o3.sessions[u].botName.None?
      && o3.reply == Some(Created(name))
      && o1.prompt.None? && o2.prompt.None? && o3.prompt.None?
  {
    var o1 := Step(s, st, u, Callback(CreateAgentData), ai);
    var o2 := Step(o1.sessions, o1.store, u, Message(name), ai);
    assert o2.sessions[u].state == Some(WaitingForInstructions) && o2.sessions[u].botName == Some(name);
    var o3 := Step(o2.sessions, o2.store, u, Message(instructions), ai);
    assert o3.store == st + [Agent(u, name, instructions, [])];
  }

  /** Tapping the k-th agent button of a listing selects that agent exactly
      when its name does not contain "select_": the handler strips every
      occurrence of the prefix, not only the leading one. */
  lemma ListThenSelect(s: SessionMap, st: Store, u: UserId, k: nat, ai: string -> string)
    requires u in s
    requires k < |OwnedBy(st, u)|
    ensures
      var o1 := Step(s, st, u, Callback(ListAgentsData), ai);
      var o2 := Step(o1.sessions, o1.store, u, Callback(o1.reply.value.buttons[k].data), ai);
      var name := OwnedBy(st, u)[k].name;
      && u in o2.sessions
      && (o2.sessions[u].selectedBot == Some(name) <==> !Contains(name, SelectPrefix))
  {
    var name := OwnedBy(st, u)[k].name;
    var o1 := Step(s, st, u, Callback(ListAgentsData), ai);
    var data := o1.reply.value.buttons[k].data;
    assert data == SelectPrefix + name;
    assert StartsWith(data, SelectPrefix);
    StripPrefixRoundTrip(SelectPrefix, name);
  }

  /** A concrete case: the button of an agent named "select_" carries the
      payload "select_select_", which selects the empty name, so the agent
      can then be neither edited nor deleted. */
  lemma AgentNamedSelectIsLost()
    ensures RemoveAll(SelectPrefix + "select_", SelectPrefix) == ""
    ensures !Truthy(Some(RemoveAll(SelectPrefix + "select_", SelectPrefix)))
  {
    var once := SelectPrefix + "select_";
    assert StartsWith(once, SelectPrefix);
    assert once[|SelectPrefix|..] == SelectPrefix;
    assert StartsWith(SelectPrefix, SelectPrefix);
    assert SelectPrefix[|SelectPrefix|..] == "";
  }

  /** From a selected agent's menu, the chat button opens a chat with that
      agent exactly when its name does not contain "chat_". */
  lemma SelectThenChat(s: SessionMap, st: Store, u: UserId, data: string, ai: string -> string)
    requires u in s
    requires StartsWith(data, SelectPrefix)
    ensures
      var o1 := Step(s, st, u, Callback(data), ai);
      var name := o1.reply.value.name;
      var o2 := Step(o1.sessions, o1.store, u, Callback(o1.reply.value.buttons[2].data), ai);
      && o1.reply.value.AgentMenu?
      && u in o2.sessions && o2.sessions[u].state == Some(Chatting)
      && (o2.sessions[u].chatbot == Some(name) <==> !Contains(name, ChatPrefix))
  {
    var name := RemoveAll(data, SelectPrefix);
    var chat := ChatPrefix + name;
    assert StartsWith(chat, ChatPrefix);
    StripPrefixRoundTrip(ChatPrefix, name);
  }

  /** Opening a chat with `name` and sending a message answers from the
      user's first agent of that name, whose transcript gains the exchange.
      These are handler events; `OpenThenChatDelivered` states it for whole
      messages. */
  lemma OpenThenChat(s: SessionMap, st: Store, u: UserId, name: string, text: string, ai: string -> string)
    requires u in s && FindFirst(st, u, name).Some?
    requires !Contains(name, ChatPrefix)
    requires text != StopCommand
    ensures
      var o4 := Step(s, st, u, Callback(ChatPrefix + name), ai);
      var o5 := Step(o4.sessions, o4.store, u, Message(text), ai);
      var i := FindFirst(st, u, name).value;
      && o5.prompt == Some(ChatPrompt(st[i].instructions, text))
      && StartsWith(o5.prompt.value, st[i].instructions)
      && Contains(o5.prompt.value, text)
      && o5.reply == Some(Answer(name, ai(o5.prompt.value)))
      && o5.store[i].messages == st[i].messages + [Turn(text, ai(o5.prompt.value))]
  {
    assert StartsWith(ChatPrefix + name, ChatPrefix);
    StripPrefixRoundTrip(ChatPrefix, name);
    var o4 := Step(s, st, u, Callback(ChatPrefix + name), ai);
    assert o4 == OpenChat(s, st, u, ChatPrefix + name);
    assert o4.sessions[u].chatbot == Some(name) && o4.sessions[u].state == Some(Chatting);
    ChatStep(o4.sessions, o4.store, u, text, ai);
  }

  /** After creating an agent with the "Create Agent" button and opening a
      chat with it, a message is
      answered from the prompt built on the instructions of the user's FIRST
      agent of that name: the new instructions if the name was free, the
      older agent's if not (a duplicate is shadowed, never overwritten).
      The prompt contains the message. These are handler events;
      `CreateThenChatDelivered` states it for whole messages. */
  lemma CreateThenChat(s: SessionMap, st: Store, u: UserId, name: string, instructions: string, text: string,
                       ai: string -> string)
    requires !Contains(name, ChatPrefix)
    requires text != StopCommand
    ensures
      var o1 := Step(s, st, u, Callback(CreateAgentData), ai);
      var o2 := Step(o1.sessions, o1.store, u, Message(name), ai);
      var o3 := Step(o2.sessions, o2.store, u, Message(instructions), ai);
      var o4 := Step(o3.sessions, o3.store, u, Callback(ChatPrefix + name), ai);
      var o5 := Step(o4.sessions, o4.store, u, Message(text), ai);
      var first := FindFirst(st, u, name);
      var i := if first.Some? then first.value else |st|;
      && o5.prompt.Some?
      && StartsWith(o5.prompt.value, if first.Some? then st[i].instructions else instructions)
      && Contains(o5.prompt.value, text)
  {
    CreateFlow(s, st, u, name, instructions, ai);
    var o1 := Step(s, st, u, Callback(CreateAgentData), ai);
    var o2 := Step(o1.sessions, o1.store, u, Message(name), ai);
    var o3 := Step(o2.sessions, o2.store, u, Message(instructions), ai);
    var a := Agent(u, name, instructions, []);
    assert o3.store == st + [a];
    FindFirstAppend(st, a, u, name);
    OpenThenChat(o3.sessions, o3.store, u, name, text, ai);
  }

  /** A button keeps the users' documents well formed. */
  lemma CallbackKeepsWellFormed(s: SessionMap, st: Store, u: UserId, data: string)
    requires AllWellFormed(s)
    ensures AllWellFormed(OnCallback(s, st, u, data).sessions)
  {
    var r := OnCallback(s, st, u, data);
    forall v | v in r.sessions
      ensures WellFormed(r.sessions[v])
    {
      if v != u {
        assert r.sessions[v] == s[v];
      }
    }
  }

  /** A text message keeps the users' documents well formed. */
  lemma TextKeepsWellFormed(s: SessionMap, st: Store, u: UserId, text: string, ai: string -> string)
    requires AllWellFormed(s)
    ensures AllWellFormed(OnText(s, st, u, text, ai).sessions)
  {
    var r := OnText(s, st, u, text, ai);
    forall v | v in r.sessions
      ensures WellFormed(r.sessions[v])
    {
      if v != u {
        assert r.sessions[v] == s[v];
      }
    }
  }

  /** Every event keeps the users' documents well formed. */
  lemma StepKeepsWellFormed(s: SessionMap, st: Store, u: UserId, ev: Event, ai: string -> string)
    ensures AllWellFormed(s) ==> AllWellFormed(Step(s, st, u, ev, ai).sessions)
  {
    if AllWellFormed(s) {
      match ev
      case StartCommand =>
      case CreateCommand =>
        var r := Step(s, st, u, ev, ai);
        forall v | v in r.sessions
          ensures WellFormed(r.sessions[v])
        {
          if v != u {
            assert r.sessions[v] == s[v];
          }
        }
      case Callback(data) => CallbackKeepsWellFormed(s, st, u, data);
      case Message(text) => TextKeepsWellFormed(s, st, u, text, ai);
    }
  }

  /** Events from any users, processed one after another. */
  function Run(s: SessionMap, st: Store, events: seq<(UserId, Event)>, ai: string -> string): (r: (SessionMap, Store))
    ensures AllWellFormed(s) ==> AllWellFormed(r.0)
    decreases |events|
  {
    if |events| == 0 then (s, st)
    else
      var o := Step(s, st, events[0].0, events[0].1, ai);
      StepKeepsWellFormed(s, st, events[0].0, events[0].1, ai);
      Run(o.sessions, o.store, events[1..], ai)
  }

  /** In any state reached from empty collections, the catch-all handler
      produces the recovery menu exactly when the sender has no document:
      the missing-`bot_name` error can never happen. This is a handler
      event; in a whole "/create" message `create` first creates the
      document, so no recovery menu is sent. */
  lemma TextRecoversOnlyForUnknownUsers(events: seq<(UserId, Event)>, u: UserId, text: string, ai: string -> string)
    ensures
      var (s, st) := Run(map[], [], events, ai);
      Step(s, st, u, Message(text), ai).reply == Some(Recovery(MenuButtons)) <==> u !in s
  {
    var (s, st) := Run(map[], [], events, ai);
    assert AllWellFormed(s);
  }

  /** Deleting one of `u`'s agents leaves every other owner's list as it was. */
  lemma DeleteKeepsOtherOwners(st: Store, u: UserId, name: string, v: UserId)
    requires v != u
    ensures OwnedBy(DeleteFirst(st, u, name), v) == OwnedBy(st, v)
  {
    if FindFirst(st, u, name).Some? {
      var i := FindFirst(st, u, name).value;
      var before, after := st[..i], st[i + 1..];
      DeleteFirstSlices(st, u, name);
      assert DeleteFirst(st, u, name) == before + after;
      assert st == (before + [st[i]]) + after;
      OwnedByConcat(before + [st[i]], after, v);
      OwnedByConcat(before, [st[i]], v);
      assert OwnedBy([st[i]], v) == [];
      OwnedByConcat(before, after, v);
    }
  }

  /** A button from `u` leaves every other owner's agents as they were. */
  lemma CallbackKeepsOtherOwners(s: SessionMap, st: Store, u: UserId, data: string, v: UserId)
    requires v != u
    ensures OwnedBy(OnCallback(s, st, u, data).store, v) == OwnedBy(st, v)
  {
    if data == DeleteData && u in s && Truthy(s[u].selectedBot) {
      DeleteKeepsOtherOwners(st, u, s[u].selectedBot.value, v);
    }
  }

  /** A text from `u` leaves every other owner's agents as they were. */
  lemma TextKeepsOtherOwners(s: SessionMap, st: Store, u: UserId, text: string, ai: string -> string, v: UserId)
    requires v != u
    ensures OwnedBy(OnText(s, st, u, text, ai).store, v) == OwnedBy(st, v)
  {
    var r := OnText(s, st, u, text, ai);
    if u in s && r.store != st {
      if s[u].state == Some(WaitingForInstructions) {
        assert r.store == st + [r.store[|st|]];
        OwnedByConcat(st, [r.store[|st|]], v);
      } else {
        OwnedByAgree(r.store, st, v);
      }
    }
  }

  /** An event from `u` leaves every other owner's agents, and their order,
      exactly as they were. */
  lemma OtherOwnersUntouched(s: SessionMap, st: Store, u: UserId, ev: Event, ai: string -> string, v: UserId)
    requires v != u
    ensures OwnedBy(Step(s, st, u, ev, ai).store, v) == OwnedBy(st, v)
  {
    match ev
    case Callback(data) => CallbackKeepsOtherOwners(s, st, u, data, v);
    case Message(text) => TextKeepsOtherOwners(s, st, u, text, ai, v);
    case _ =>
  }

  // ----- Whole messages: pattern handlers plus the catch-all handler -----

  /** Running two handlers is two `Step`s. */
  lemma ApplyPair(d: Delivery, u: UserId, ev1: Event, ev2: Event, ai: string -> string)
    ensures
      var o1 := Step(d.sessions, d.store, u, ev1, ai);
      var mid := Delivery(o1.sessions, o1.store, d.replies + ToSeq(o1.reply), d.prompts + ToSeq(o1.prompt));
      Apply(d, u, [ev1, ev2], ai) == Apply(mid, u, [ev2], ai)
  {
    assert [ev1, ev2][1..] == [ev2];
  }

  /** "/create" triggers exactly the `create` handler among the pattern handlers. */
  lemma CreateTextPatterns()
    ensures PatternEvents(CreateText) == [CreateCommand]
    ensures IsCommand(CreateText)
  {
    CommandsExclusive();
    assert StartsWith(CreateText, CreateText);
  }

  /** A plain text in `creating_bot` becomes the pending name. */
  lemma DeliverName(s: SessionMap, st: Store, u: UserId, text: string, ai: string -> string)
    requires u in s && s[u].state == Some(CreatingBot) && !IsCommand(text)
    ensures
      var d := Deliver(s, st, u, text, ai);
      && u in d.sessions && d.sessions[u].state == Some(WaitingForInstructions)
      && d.sessions[u].botName == Some(text) && d.store == st
  {
    var o := Step(s, st, u, Message(text), ai);
    assert o == SaveName(s, st, u, text);
  }

  /** A plain text in `waiting_for_instructions` creates the pending agent. */
  lemma DeliverInstructions(s: SessionMap, st: Store, u: UserId, text: string, ai: string -> string)
    requires u in s && s[u].state == Some(WaitingForInstructions) && s[u].botName.Some? && !IsCommand(text)
    ensures
      var d := Deliver(s, st, u, text, ai);
      && d.store == st + [Agent(u, s[u].botName.value, text, [])]
      && u in d.sessions && d.sessions[u].state.None?
      && d.replies == [Created(s[u].botName.value)]
  {
    var o := Step(s, st, u, Message(text), ai);
    assert o == CreateAgent(s, st, u, text);
  }

  /** A plain text from a user with no state changes nothing and gets no reply. */
  lemma DeliverWithoutState(s: SessionMap, st: Store, u: UserId, text: string, ai: string -> string)
    requires u in s && s[u].state.None? && !IsCommand(text)
    ensures
      var d := Deliver(s, st, u, text, ai);
      d.store == st && d.sessions == s && d.replies == []
  {
  }

  /** A text beginning with "/create", in registration order, from a user in
      ANY state: `create` puts the user in `creating_bot`, and the catch-all
      handler then stores the whole text as the pending name. No agent is
      created or changed and the model is not called. */
  lemma DeliverCreateAsWritten(s: SessionMap, st: Store, u: UserId, text: string, ai: string -> string)
    requires StartsWith(text, CreateText)
    ensures
      var d := Deliver(s, st, u, text, ai);
      && u in d.sessions && d.sessions[u].state == Some(WaitingForInstructions)
      && d.sessions[u].botName == Some(text) && d.store == st && d.prompts == []
  {
    CommandsExclusive();
    assert PatternEvents(text) == [CreateCommand];
    var d0 := Delivery(s, st, [], []);
    var o1 := Step(s, st, u, CreateCommand, ai);
    var mid := Delivery(o1.sessions, o1.store, ToSeq(o1.reply), ToSeq(o1.prompt));
    ApplyPair(d0, u, CreateCommand, Message(text), ai);
    ApplySingle(mid, u, Message(text), ai);
    var o2 := Step(o1.sessions, o1.store, u, Message(text), ai);
    assert o2 == SaveName(o1.sessions, o1.store, u, text);
  }

  /** The `/create` message as the code runs it, `create` before the
      catch-all handler (registration order): the catch-all handler finds the
      user in `creating_bot` and stores "/create" itself as the name. The
      name the user sends next becomes the INSTRUCTIONS of an agent called
      "/create", and the instructions sent after that reach a user with no
      state and are dropped without a reply. */
  lemma CreateCommandAsWritten(s: SessionMap, st: Store, u: UserId, name: string, instructions: string,
                               ai: string -> string)
    requires !IsCommand(name) && !IsCommand(instructions)
    ensures
      var d1 := Deliver(s, st, u, CreateText, ai);
      var d2 := Deliver(d1.sessions, d1.store, u, name, ai);
      var d3 := Deliver(d2.sessions, d2.store, u, instructions, ai);
      && d1.store == st
      && d2.store == st + [Agent(u, CreateText, name, [])]
      && d2.replies == [Created(CreateText)]
      && d3.store == d2.store && d3.replies == []
  {
    CreateTextPatterns();
    assert StartsWith(CreateText, CreateText);
    DeliverCreateAsWritten(s, st, u, CreateText, ai);
    var d1 := Deliver(s, st, u, CreateText, ai);
    DeliverInstructions(d1.sessions, d1.store, u, name, ai);
    var d2 := Deliver(d1.sessions, d1.store, u, name, ai);
    DeliverWithoutState(d2.sessions, d2.store, u, instructions, ai);
  }

  /** The `/create` message as evidently intended, a command reaching only its
      own handler: from any state, "/create", a name and instructions append
      exactly the intended agent and clear the state. */
  lemma CreateCommandIntended(s: SessionMap, st: Store, u: UserId, name: string, instructions: string,
                              ai: string -> string)
    requires !IsCommand(name) && !IsCommand(instructions)
    ensures
      var d1 := DeliverIntended(s, st, u, CreateText, ai);
      var d2 := DeliverIntended(d1.sessions, d1.store, u, name, ai);
      var d3 := DeliverIntended(d2.sessions, d2.store, u, instructions, ai);
      && d3.store == st + [Agent(u, name, instructions, [])]
      && u in d3.sessions && d3.sessions[u].state.None?
      && d3.replies == [Created(name)]
  {
    CreateTextPatterns();
    var d1 := DeliverIntended(s, st, u, CreateText, ai);
    DeliverName(d1.sessions, d1.store, u, name, ai);
    var d2 := DeliverIntended(d1.sessions, d1.store, u, name, ai);
    DeliverInstructions(d2.sessions, d2.store, u, instructions, ai);
  }

  /** A text beginning with "/start", in registration order: the menu is
      sent, and then the catch-all handler treats the text as an ordinary
      text in the user's state. */
  lemma DeliverStartAsWritten(s: SessionMap, st: Store, u: UserId, text: string, ai: string -> string)
    requires StartsWith(text, StartText)
    ensures
      var o := Step(s, st, u, Message(text), ai);
      var d := Deliver(s, st, u, text, ai);
      d == Delivery(o.sessions, o.store, [Welcome(MenuButtons)] + ToSeq(o.reply), ToSeq(o.prompt))
  {
    CommandsExclusive();
    assert PatternEvents(text) == [StartCommand];
    var d0 := Delivery(s, st, [], []);
    var o1 := Step(s, st, u, StartCommand, ai);
    var mid := Delivery(o1.sessions, o1.store, ToSeq(o1.reply), ToSeq(o1.prompt));
    ApplyPair(d0, u, StartCommand, Message(text), ai);
    ApplySingle(mid, u, Message(text), ai);
  }

  /** Any text that does not begin with "/create", in registration order,
      leaves the collections exactly as the catch-all handler alone would,
      sends the same prompt, and replies as it does (after the menu for a
      text beginning with "/start"). */
  lemma DeliverAsOneStep(s: SessionMap, st: Store, u: UserId, text: string, ai: string -> string)
    requires !StartsWith(text, CreateText)
    ensures
      var o := Step(s, st, u, Message(text), ai);
      var d := Deliver(s, st, u, text, ai);
      && d.sessions == o.sessions && d.store == o.store && d.prompts == ToSeq(o.prompt)
      && d.replies == (if StartsWith(text, StartText) then [Welcome(MenuButtons)] else []) + ToSeq(o.reply)
  {
    if StartsWith(text, StartText) {
      DeliverStartAsWritten(s, st, u, text, ai);
    }
  }

  /** The "Create Agent" button, then a name and instructions sent as
      messages: when neither text begins with "/create", exactly one agent is
      appended, as in `CreateFlow`, and the model is never called. A text
      that does begin with "/create" restarts the flow instead
      (`DeliverCreateAsWritten`). */
  lemma CreateFlowDelivered(s: SessionMap, st: Store, u: UserId, name: string, instructions: string,
                            ai: string -> string)
    requires !StartsWith(name, CreateText) && !StartsWith(instructions, CreateText)
    ensures
      var o1 := Step(s, st, u, Callback(CreateAgentData), ai);
      var d2 := Deliver(o1.sessions, o1.store, u, name, ai);
      var d3 := Deliver(d2.sessions, d2.store, u, instructions, ai);
      && d3.store == st + [Agent(u, name, instructions, [])]
      && u in d3.sessions && d3.sessions[u].state.None? && d3.sessions[u].botName.None?
      && |d3.replies| > 0 && d3.replies[|d3.replies| - 1] == Created(name)
      && d2.prompts == [] && d3.prompts == []
  {
    CreateFlow(s, st, u, name, instructions, ai);
    var o1 := Step(s, st, u, Callback(CreateAgentData), ai);
    DeliverAsOneStep(o1.sessions, o1.store, u, name, ai);
    var d2 := Deliver(o1.sessions, o1.store, u, name, ai);
    DeliverAsOneStep(d2.sessions, d2.store, u, instructions, ai);
  }

  /** The catch-all handler on a chatting user's text other than "/stop":
      one prompt, one answer, one exchange recorded. */
  lemma ChatStep(s: SessionMap, st: Store, u: UserId, text: string, ai: string -> string)
    requires u in s && s[u].state == Some(Chatting) && s[u].chatbot.Some?
    requires FindFirst(st, u, s[u].chatbot.value).Some?
    requires text != StopCommand
    ensures
      var i := FindFirst(st, u, s[u].chatbot.value).value;
      var o := Step(s, st, u, Message(text), ai);
      var p := ChatPrompt(st[i].instructions, text);
      && o.prompt == Some(p) && o.reply == Some(Answer(s[u].chatbot.value, ai(p)))
      && |o.store| == |st| && o.store[i].messages == st[i].messages + [Turn(text, ai(p))]
  {
    var o := Step(s, st, u, Message(text), ai);
    assert o == ChatTurn(s, st, u, text, ai);
  }

  /** Two messages whose handlers interleave: `create` for "/create" runs,
      then the catch-all handler for the next text `name`, then the
      catch-all handler for "/create" itself. The agent is named by the
      second message and its instructions are "/create". */
  lemma InterleavedCreate(s: SessionMap, st: Store, u: UserId, name: string, ai: string -> string)
    ensures
      var o1 := Step(s, st, u, CreateCommand, ai);
      var o2 := Step(o1.sessions, o1.store, u, Message(name), ai);
      var o3 := Step(o2.sessions, o2.store, u, Message(CreateText), ai);
      && o3.store == st + [Agent(u, name, CreateText, [])]
      && u in o3.sessions && o3.sessions[u].state.None?
      && o3.reply == Some(Created(name))
  {
    var o1 := Step(s, st, u, CreateCommand, ai);
    assert o1 == BeginCreate(s, st, u);
    var o2 := Step(o1.sessions, o1.store, u, Message(name), ai);
    assert o2 == SaveName(o1.sessions, o1.store, u, name);
    var o3 := Step(o2.sessions, o2.store, u, Message(CreateText), ai);
    assert o3 == CreateAgent(o2.sessions, o2.store, u, CreateText);
  }

  /** A message that is neither "/stop" nor begins with "/create", from a
      user chatting with an existing agent: the model gets exactly that
      agent's prompt, the exchange is recorded on it, and the answer is the
      last reply. */
  lemma ChatDelivered(s: SessionMap, st: Store, u: UserId, text: string, ai: string -> string)
    requires u in s && s[u].state == Some(Chatting) && s[u].chatbot.Some?
    requires FindFirst(st, u, s[u].chatbot.value).Some?
    requires text != StopCommand && !StartsWith(text, CreateText)
    ensures
      var i := FindFirst(st, u, s[u].chatbot.value).value;
      var d := Deliver(s, st, u, text, ai);
      && d.prompts == [ChatPrompt(st[i].instructions, text)]
      && |d.store| == |st|
      && d.store[i].messages == st[i].messages + [Turn(text, ai(d.prompts[0]))]
      && |d.replies| > 0 && d.replies[|d.replies| - 1] == Answer(s[u].chatbot.value, ai(d.prompts[0]))
  {
    ChatStep(s, st, u, text, ai);
    DeliverAsOneStep(s, st, u, text, ai);
  }

  /** Opening a chat with a button and then sending a message that does not
      begin with "/create": the message reaches the model with exactly the
      first matching agent's prompt, and the exchange is recorded on that
      agent. A text beginning with "/create" leaves the chat instead
      (`DeliverCreateAsWritten`). */
  lemma OpenThenChatDelivered(s: SessionMap, st: Store, u: UserId, name: string, text: string, ai: string -> string)
    requires u in s && FindFirst(st, u, name).Some?
    requires !Contains(name, ChatPrefix)
    requires text != StopCommand && !StartsWith(text, CreateText)
    ensures
      var o4 := Step(s, st, u, Callback(ChatPrefix + name), ai);
      var d5 := Deliver(o4.sessions, o4.store, u, text, ai);
      var i := FindFirst(st, u, name).value;
      && d5.prompts == [ChatPrompt(st[i].instructions, text)]
      && |d5.store| == |st|
      && d5.store[i].messages == st[i].messages + [Turn(text, ai(d5.prompts[0]))]
      && |d5.replies| > 0 && d5.replies[|d5.replies| - 1] == Answer(name, ai(d5.prompts[0]))
  {
    assert StartsWith(ChatPrefix + name, ChatPrefix);
    StripPrefixRoundTrip(ChatPrefix, name);
    var o4 := Step(s, st, u, Callback(ChatPrefix + name), ai);
    assert o4 == OpenChat(s, st, u, ChatPrefix + name);
    ChatDelivered(o4.sessions, o4.store, u, text, ai);
  }

  /** `CreateThenChat` for whole messages: when none of the three texts
      begins with "/create", the chat message is answered from the first
      agent of that name, the new one exactly when the name was free. */
  lemma CreateThenChatDelivered(s: SessionMap, st: Store, u: UserId, name: string, instructions: string,
                                text: string, ai: string -> string)
    requires !Contains(name, ChatPrefix)
    requires text != StopCommand
    requires !StartsWith(name, CreateText) && !StartsWith(instructions, CreateText) && !StartsWith(text, CreateText)
    ensures
      var o1 := Step(s, st, u, Callback(CreateAgentData), ai);
      var d2 := Deliver(o1.sessions, o1.store, u, name, ai);
      var d3 := Deliver(d2.sessions, d2.store, u, instructions, ai);
      var o4 := Step(d3.sessions, d3.store, u, Callback(ChatPrefix + name), ai);
      var d5 := Deliver(o4.sessions, o4.store, u, text, ai);
      var first := FindFirst(st, u, name);
      var i := if first.Some? then first.value else |st|;
      && |d5.prompts| == 1
      && StartsWith(d5.prompts[0], if first.Some? then st[i].instructions else instructions)
      && Contains(d5.prompts[0], text)
  {
    CreateThenChat(s, st, u, name, instructions, text, ai);
    var o1 := Step(s, st, u, Callback(CreateAgentData), ai);
    DeliverAsOneStep(o1.sessions, o1.store, u, name, ai);
    var d2 := Deliver(o1.sessions, o1.store, u, name, ai);
    DeliverAsOneStep(d2.sessions, d2.store, u, instructions, ai);
    var d3 := Deliver(d2.sessions, d2.store, u, instructions, ai);
    var o4 := Step(d3.sessions, d3.store, u, Callback(ChatPrefix + name), ai);
    DeliverAsOneStep(o4.sessions, o4.store, u, text, ai);
  }

  /** "/start" from a chatting user, as the code runs it: besides the menu,
      the catch-all handler sends "/start" to the language model as a chat
      turn and records the exchange on the agent; as intended, only the menu
      is sent and nothing is recorded. */
  lemma StartMessageReachesModel(s: SessionMap, st: Store, u: UserId, ai: string -> string)
    requires u in s && s[u].state == Some(Chatting) && s[u].chatbot.Some?
    requires FindFirst(st, u, s[u].chatbot.value).Some?
    ensures
      var i := FindFirst(st, u, s[u].chatbot.value).value;
      var d := Deliver(s, st, u, StartText, ai);
      && d.prompts == [ChatPrompt(st[i].instructions, StartText)]
      && |d.store| == |st|
      && d.store[i].messages == st[i].messages + [Turn(StartText, ai(d.prompts[0]))]
    ensures DeliverIntended(s, st, u, StartText, ai) == Delivery(s, st, [Welcome(MenuButtons)], [])
  {
    CommandsExclusive();
    assert StartsWith(StartText, StartText);
    assert StartText != StopCommand;
    ChatDelivered(s, st, u, StartText, ai);
  }
}

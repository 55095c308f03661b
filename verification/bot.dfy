/** The four Telegram handlers of the bot (`/start`, `/create`, button
    callbacks and the catch-all message handler) as pure transitions over
    the users collection and the chatbots collection. */
module Bot {
  import opened Optional
  import opened Text
  import opened Sessions
  import opened Agents

  // Callback payloads and commands the router compares against.
  const CreateAgentData := "create_agent"
  const ListAgentsData := "list_agents"
  const MainMenuData := "main_menu"
  const EditData := "edit_bot"
  const DeleteData := "delete_bot"
  const SelectPrefix := "select_"
  const ChatPrefix := "chat_"
  const StopCommand := "/stop"

  /** An inline button: its caption and the callback payload it sends back. */
  datatype Button = Button(caption: string, data: string)

  /** What the bot sends back; wording and emoji are left out. */
  datatype Reply =
    | Welcome(buttons: seq<Button>)             // the /start menu
    | Recovery(buttons: seq<Button>)            // the menu shown after an exception
    | AskName
    | AgentList(buttons: seq<Button>)
    | NoAgents
    | AgentMenu(name: string, buttons: seq<Button>)
    | AskNewInstructions(name: string)
    | Deleted(name: string)
    | ChatOpened(name: string)
    | AskInstructions
    | Created(name: string)
    | Updated(name: string)
    | Stopped
    | Answer(name: string, response: string)

  /** One handler's view of an incoming update: the `start` handler, the
      `create` handler, a button tap, or the catch-all message handler.
      A `/start` or `/create` message runs its pattern handler AND the
      catch-all handler; `Dispatch.Deliver` combines them. */
  datatype Event =
    | StartCommand
    | CreateCommand
    | Callback(data: string)
    | Message(text: string)

  /** The collections after the event, the reply sent (if any), and the
      prompt passed to the language model (if it was called). */
  datatype Outcome = Outcome(sessions: SessionMap, store: Store, reply: Option<Reply>, prompt: Option<string>)

  /** The buttons of the main menu, sent by `/start` and by the recovery menu. */
  const MenuButtons := [Button("Create Agent", CreateAgentData), Button("List Existing Agents", ListAgentsData)]

  /** Nothing changes and nothing is sent. */
  function Quiet(s: SessionMap, st: Store): Outcome {
    Outcome(s, st, None, None)
  }

  /** The `except:` arms: nothing changes and the menu is sent again. */
  function Recover(s: SessionMap, st: Store): Outcome {
    Outcome(s, st, Some(Recovery(MenuButtons)), None)
  }

  /** The prompt a chat turn sends to the language model: the instructions,
      then the user's text framed by the "User:" and "AI:" markers, from
      which the text can be read back. */
  function ChatPrompt(instructions: string, text: string): (prompt: string)
    ensures StartsWith(prompt, instructions)
    ensures Contains(prompt, text)
    ensures |prompt| == |instructions| + |text| + 11
    ensures prompt[|instructions| + 7..|prompt| - 4] == text
  {
    var prompt := instructions + "\nUser: " + text + "\nAI:";
    assert OccursAt(prompt, text, |instructions| + 7);
    prompt
  }

  // ----- Button callbacks -----

  /** Which arm of the callback `if`/`elif` chain a payload takes. */
  datatype Arm = CreateArm | ListArm | MenuArm | SelectArm | EditArm | DeleteArm | ChatArm | MenuArmAgain | NoArm

  /** None of the exact payloads starts with "select_" or "chat_", and no
      payload starts with both prefixes. */
  lemma ExactPayloadsUnprefixed()
    ensures forall d :: d in {CreateAgentData, ListAgentsData, MainMenuData, EditData, DeleteData} ==>
      !StartsWith(d, SelectPrefix) && !StartsWith(d, ChatPrefix)
    ensures forall d :: StartsWith(d, SelectPrefix) ==> !StartsWith(d, ChatPrefix)
  {
    forall d | StartsWith(d, SelectPrefix)
      ensures !StartsWith(d, ChatPrefix)
    {
      assert d[0] == SelectPrefix[0];
    }
    assert CreateAgentData[0] == 'c' && ListAgentsData[0] == 'l' && MainMenuData[0] == 'm';
    assert EditData[0] == 'e' && DeleteData[0] == 'd';
    assert SelectPrefix[0] == 's' && ChatPrefix[0] == 'c' && ChatPrefix[1] == 'h' && CreateAgentData[1] == 'r';
  }

  /** The callback router. The exact payloads are tested before and between
      the prefix tests, but none of them starts with either prefix, so a
      prefixed payload always reaches its prefix arm; the second `main_menu`
      arm can never be taken. */
  function Route(data: string): (arm: Arm)
    ensures arm != MenuArmAgain
    ensures arm == SelectArm <==> StartsWith(data, SelectPrefix)
    ensures arm == ChatArm <==> StartsWith(data, ChatPrefix)
    ensures arm == NoArm <==>
      && data !in {CreateAgentData, ListAgentsData, MainMenuData, EditData, DeleteData}
      && !StartsWith(data, SelectPrefix) && !StartsWith(data, ChatPrefix)
  {
    ExactPayloadsUnprefixed();
    if data == CreateAgentData then CreateArm
    else if data == ListAgentsData then ListArm
    else if data == MainMenuData then MenuArm
    else if StartsWith(data, SelectPrefix) then SelectArm
    else if data == EditData then EditArm
    else if data == DeleteData then DeleteArm
    else if StartsWith(data, ChatPrefix) then ChatArm
    else if data == MainMenuData then MenuArmAgain
    else NoArm
  }

  /** The `/create` command and the "create_agent" button: the user's
      document is upserted with `state = creating_bot`. */
  function BeginCreate(s: SessionMap, st: Store, u: UserId): (r: Outcome)
    ensures u in r.sessions && r.sessions[u].state == Some(CreatingBot)
    ensures u in s ==> r.sessions[u] == s[u].(state := Some(CreatingBot))
    ensures u !in s ==> r.sessions[u] == Session(Some(CreatingBot), None, None, None)
    ensures SameExcept(s, r.sessions, u)
    ensures r.store == st && r.reply == Some(AskName) && r.prompt.None?
  {
    Outcome(UpdateOne(s, u, (sess: Session) => sess.(state := Some(CreatingBot)), true), st, Some(AskName), None)
  }

  /** The select button of one agent. */
  function AgentButton(a: Agent): Button {
    Button(a.name, SelectPrefix + a.name)
  }

  /** The select buttons of `agents`, in order. */
  function AgentButtons(agents: seq<Agent>): (bs: seq<Button>)
    ensures |bs| == |agents|
    ensures forall i :: 0 <= i < |agents| ==> bs[i] == AgentButton(agents[i])
  {
    if |agents| == 0 then [] else [AgentButton(agents[0])] + AgentButtons(agents[1..])
  }

  /** The "list_agents" button: one select button per agent the user owns,
      in store order, then a Back button; the "no chatbots" reply is never
      sent because the list always holds at least the Back button. */
  function ListAgents(s: SessionMap, st: Store, u: UserId): (r: Outcome)
    ensures r.sessions == s && r.store == st && r.prompt.None?
    ensures r.reply.Some? && r.reply.value.AgentList? && r.reply.value != NoAgents
    ensures var bs := r.reply.value.buttons; var owned := OwnedBy(st, u);
      && |bs| == |owned| + 1
      && bs[|owned|] == Button("Back", MainMenuData)
      && forall i :: 0 <= i < |owned| ==> bs[i] == Button(owned[i].name, SelectPrefix + owned[i].name)
  {
    var owned := OwnedBy(st, u);
    var buttons := AgentButtons(owned) + [Button("Back", MainMenuData)];
    if |buttons| > 0 then Outcome(s, st, Some(AgentList(buttons)), None)
    else Outcome(s, st, Some(NoAgents), None)
  }

  /** The actions offered for a selected agent. */
  function AgentMenuButtons(name: string): seq<Button> {
    [Button("Edit Instructions", EditData), Button("Delete Bot", DeleteData),
     Button("Chat with Bot", ChatPrefix + name), Button("Back", ListAgentsData)]
  }

  /** A "select_…" button: the name is the payload with every "select_"
      removed; it is stored as `selected_bot` only if the user has a
      document (no upsert), and the action menu is sent either way. */
  function SelectAgent(s: SessionMap, st: Store, u: UserId, data: string): (r: Outcome)
    ensures var name := RemoveAll(data, SelectPrefix);
      && (u in s ==> u in r.sessions && r.sessions[u] == s[u].(selectedBot := Some(name)))
      && r.reply == Some(AgentMenu(name, AgentMenuButtons(name)))
    ensures u !in s ==> r.sessions == s
    ensures SameExcept(s, r.sessions, u)
    ensures r.store == st && r.prompt.None?
  {
    var name := RemoveAll(data, SelectPrefix);
    Outcome(UpdateOne(s, u, (sess: Session) => sess.(selectedBot := Some(name)), false), st,
            Some(AgentMenu(name, AgentMenuButtons(name))), None)
  }

  /** The "edit_bot" button: with a selected agent the user enters
      `editing_bot`; with no (or an empty) selection nothing happens; with
      no document at all the lookup raises and the menu is sent again. */
  function EditAgent(s: SessionMap, st: Store, u: UserId): (r: Outcome)
    ensures r.store == st && r.prompt.None? && SameExcept(s, r.sessions, u)
    ensures u !in s ==> r.sessions == s && r.reply == Some(Recovery(MenuButtons))
    ensures u in s && Truthy(s[u].selectedBot) ==>
      && u in r.sessions && r.sessions[u] == s[u].(state := Some(EditingBot))
      && r.reply == Some(AskNewInstructions(s[u].selectedBot.value))
    ensures u in s && !Truthy(s[u].selectedBot) ==> r.sessions == s && r.reply.None?
  {
    if u !in s then Recover(s, st)
    else if Truthy(s[u].selectedBot) then
      Outcome(UpdateOne(s, u, (sess: Session) => sess.(state := Some(EditingBot)), false), st,
              Some(AskNewInstructions(s[u].selectedBot.value)), None)
    else Quiet(s, st)
  }

  /** The "delete_bot" button: removes the first of the user's agents with
      the selected name (if there is one), unsets `selected_bot`, and reports
      success whether or not anything was removed. */
  function DeleteAgent(s: SessionMap, st: Store, u: UserId): (r: Outcome)
    ensures r.prompt.None? && SameExcept(s, r.sessions, u)
    ensures u !in s ==> r == Outcome(s, st, Some(Recovery(MenuButtons)), None)
    ensures u in s && !Truthy(s[u].selectedBot) ==> r == Outcome(s, st, None, None)
    ensures u in s && Truthy(s[u].selectedBot) ==>
      var name := s[u].selectedBot.value;
      && u in r.sessions && r.sessions[u] == s[u].(selectedBot := None)
      && r.reply == Some(Deleted(name))
      && |st| - 1 <= |r.store| <= |st|
      && (FindFirst(st, u, name).None? ==> r.store == st)
      && (FindFirst(st, u, name).Some? ==>
            var i := FindFirst(st, u, name).value;
            r.store == st[..i] + st[i + 1..])
  {
    if u !in s then Recover(s, st)
    else if Truthy(s[u].selectedBot) then
      var name := s[u].selectedBot.value;
      var rest := DeleteFirst(st, u, name);
      assert FindFirst(st, u, name).Some? ==> rest == st[..FindFirst(st, u, name).value] + st[FindFirst(st, u, name).value + 1..] by {
        if FindFirst(st, u, name).Some? {
          DeleteFirstSlices(st, u, name);
        }
      }
      Outcome(UpdateOne(s, u, (sess: Session) => sess.(selectedBot := None), false), rest,
              Some(Deleted(name)), None)
    else Quiet(s, st)
  }

  /** A "chat_…" button: the name is the payload with every "chat_" removed;
      the user enters `chatting` with that chatbot if they have a document
      (no upsert), and the confirmation is sent either way. */
  function OpenChat(s: SessionMap, st: Store, u: UserId, data: string): (r: Outcome)
    ensures var name := RemoveAll(data, ChatPrefix);
      && (u in s ==> u in r.sessions && r.sessions[u] == s[u].(state := Some(Chatting), chatbot := Some(name)))
      && r.reply == Some(ChatOpened(name))
    ensures u !in s ==> r.sessions == s
    ensures SameExcept(s, r.sessions, u)
    ensures r.store == st && r.prompt.None?
  {
    var name := RemoveAll(data, ChatPrefix);
    Outcome(UpdateOne(s, u, (sess: Session) => sess.(state := Some(Chatting), chatbot := Some(name)), false), st,
            Some(ChatOpened(name)), None)
  }

  /** `callback_handler`: dispatches a button payload. A button never calls
      the language model, only "delete_bot" touches the chatbots, and no
      other user's document changes. */
  function OnCallback(s: SessionMap, st: Store, u: UserId, data: string): (r: Outcome)
    ensures r.prompt.None?
    ensures SameExcept(s, r.sessions, u)
    ensures data != DeleteData ==> r.store == st
    ensures Route(data) == NoArm ==> r == Outcome(s, st, None, None)
    ensures data == MainMenuData ==> r == Outcome(s, st, Some(Welcome(MenuButtons)), None)
  {
    match Route(data)
    case CreateArm => BeginCreate(s, st, u)
    case ListArm => ListAgents(s, st, u)
    case MenuArm => Outcome(s, st, Some(Welcome(MenuButtons)), None)
    case SelectArm => SelectAgent(s, st, u, data)
    case EditArm => EditAgent(s, st, u)
    case DeleteArm => DeleteAgent(s, st, u)
    case ChatArm => OpenChat(s, st, u, data)
    case MenuArmAgain => Outcome(s, st, Some(Welcome(MenuButtons)), None)
    case NoArm => Quiet(s, st)
  }

  // ----- Text messages -----

  /** Step 1 of creation: the text becomes the pending `bot_name` and the
      user moves to `waiting_for_instructions`. */
  function SaveName(s: SessionMap, st: Store, u: UserId, text: string): (r: Outcome)
    requires u in s
    ensures u in r.sessions && SameExcept(s, r.sessions, u)
    ensures r.sessions[u].botName == Some(text) && r.sessions[u].state == Some(WaitingForInstructions)
    ensures r.sessions[u].selectedBot == s[u].selectedBot && r.sessions[u].chatbot == s[u].chatbot
    ensures r.store == st && r.reply == Some(AskInstructions) && r.prompt.None?
  {
    Outcome(UpdateOne(s, u, (sess: Session) => sess.(botName := Some(text), state := Some(WaitingForInstructions)), false),
            st, Some(AskInstructions), None)
  }

  /** Step 2 of creation: one new agent with the pending name and the text as
      instructions is appended, without any check for an existing agent of
      that name; `state` and `bot_name` are unset. */
  function CreateAgent(s: SessionMap, st: Store, u: UserId, text: string): (r: Outcome)
    requires u in s && s[u].botName.Some?
    ensures u in r.sessions && SameExcept(s, r.sessions, u)
    ensures r.sessions[u] == s[u].(state := None, botName := None)
    ensures |r.store| == |st| + 1 && r.store[..|st|] == st
    ensures r.store[|st|] == Agent(u, s[u].botName.value, text, [])
    ensures r.reply == Some(Created(s[u].botName.value)) && r.prompt.None?
  {
    var name := s[u].botName.value;
    Outcome(UpdateOne(s, u, (sess: Session) => sess.(state := None, botName := None), false),
            st + [Agent(u, name, text, [])], Some(Created(name)), None)
  }

  /** Editing: with a selected agent, only the `instructions` of the user's
      first agent of that name change, `state` is unset and `selected_bot`
      is kept; with no (or an empty) selection nothing happens. */
  function EditInstructions(s: SessionMap, st: Store, u: UserId, text: string): (r: Outcome)
    requires u in s
    ensures SameExcept(s, r.sessions, u) && r.prompt.None?
    ensures !Truthy(s[u].selectedBot) ==> r == Outcome(s, st, None, None)
    ensures Truthy(s[u].selectedBot) ==>
      var name := s[u].selectedBot.value;
      && u in r.sessions && r.sessions[u] == s[u].(state := None)
      && r.reply == Some(Updated(name))
      && |r.store| == |st|
      && (FindFirst(st, u, name).None? ==> r.store == st)
      && (FindFirst(st, u, name).Some? ==>
            var i := FindFirst(st, u, name).value;
            && r.store[i].owner == st[i].owner && r.store[i].name == st[i].name
            && r.store[i].instructions == text && r.store[i].messages == st[i].messages
            && forall j :: 0 <= j < |st| && j != i ==> r.store[j] == st[j])
  {
    if Truthy(s[u].selectedBot) then
      var name := s[u].selectedBot.value;
      Outcome(UpdateOne(s, u, (sess: Session) => sess.(state := None), false),
              ModifyFirst(st, u, name, (a: Agent) => a.(instructions := text)), Some(Updated(name)), None)
    else Quiet(s, st)
  }

  /** "/stop" while chatting: `state` and `chatbot` are unset together, the
      language model is not called and the chatbots are untouched. */
  function StopChat(s: SessionMap, st: Store, u: UserId): (r: Outcome)
    requires u in s
    ensures u in r.sessions && SameExcept(s, r.sessions, u)
    ensures r.sessions[u] == s[u].(state := None, chatbot := None)
    ensures r.store == st && r.reply == Some(Stopped) && r.prompt.None?
  {
    Outcome(UpdateOne(s, u, (sess: Session) => sess.(state := None, chatbot := None), false), st, Some(Stopped), None)
  }

  /** A chat turn: the user's first agent named by `chatbot` is prompted with
      its instructions and the text, and exactly one exchange is appended to
      that agent's transcript; the session is untouched. Without such an
      agent (or with no `chatbot` field) nothing happens and nothing is
      sent. The language model is the parameter `ai`. */
  function ChatTurn(s: SessionMap, st: Store, u: UserId, text: string, ai: string -> string): (r: Outcome)
    requires u in s
    ensures r.sessions == s && |r.store| == |st|
    ensures s[u].chatbot.None? || FindFirst(st, u, s[u].chatbot.value).None? ==> r == Outcome(s, st, None, None)
    ensures s[u].chatbot.Some? && FindFirst(st, u, s[u].chatbot.value).Some? ==>
      var name := s[u].chatbot.value;
      var i := FindFirst(st, u, name).value;
      && r.prompt == Some(ChatPrompt(st[i].instructions, text))
      && StartsWith(r.prompt.value, st[i].instructions) && Contains(r.prompt.value, text)
      && r.reply == Some(Answer(name, ai(r.prompt.value)))
      && r.store[i] == st[i].(messages := st[i].messages + [Turn(text, ai(r.prompt.value))])
      && forall j :: 0 <= j < |st| && j != i ==> r.store[j] == st[j]
  {
    match s[u].chatbot
    case None => Quiet(s, st)
    case Some(name) =>
      match FindFirst(st, u, name)
      case None => Quiet(s, st)
      case Some(i) =>
        var prompt := ChatPrompt(st[i].instructions, text);
        var response := ai(prompt);
        Outcome(s, ModifyFirst(st, u, name, (a: Agent) => a.(messages := a.messages + [Turn(text, response)])),
                Some(Answer(name, response)), Some(prompt))
  }

  /** `handle_messages`: dispatches a text on the user's `state`. A user
      without a document makes the lookup raise, so the menu is sent again
      and nothing changes; a user with no `state` gets no reply. The model
      is called only while chatting and never for "/stop". */
  function OnText(s: SessionMap, st: Store, u: UserId, text: string, ai: string -> string): (r: Outcome)
    ensures SameExcept(s, r.sessions, u)
    ensures u !in s ==> r == Outcome(s, st, Some(Recovery(MenuButtons)), None)
    ensures u in s && s[u].state.None? ==> r == Outcome(s, st, None, None)
    ensures r.prompt.Some? ==> u in s && s[u].state == Some(Chatting) && text != StopCommand
    ensures r.reply == Some(Recovery(MenuButtons)) ==>
      u !in s || (s[u].state == Some(WaitingForInstructions) && s[u].botName.None?)
  {
    if u !in s then Recover(s, st)
    else match s[u].state
      case None => Quiet(s, st)
      case Some(CreatingBot) => SaveName(s, st, u, text)
      case Some(WaitingForInstructions) =>
        if s[u].botName.None? then Recover(s, st)   // `user_data["bot_name"]` raises
        else CreateAgent(s, st, u, text)
      case Some(EditingBot) => EditInstructions(s, st, u, text)
      case Some(Chatting) =>
        if text == StopCommand then StopChat(s, st, u)
        else ChatTurn(s, st, u, text, ai)
  }

  /** One event from user `u`. */
  function Step(s: SessionMap, st: Store, u: UserId, ev: Event, ai: string -> string): (r: Outcome)
    ensures SameExcept(s, r.sessions, u)
    ensures r.prompt.Some? ==> ev.Message? && u in s && s[u].state == Some(Chatting)
    ensures ev.StartCommand? ==> r == Outcome(s, st, Some(Welcome(MenuButtons)), None)
  {
    match ev
    case StartCommand => Outcome(s, st, Some(Welcome(MenuButtons)), None)
    case CreateCommand => BeginCreate(s, st, u)
    case Callback(data) => OnCallback(s, st, u, data)
    case Message(text) => OnText(s, st, u, text, ai)
  }
}

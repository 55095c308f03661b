# Telegram agent bot: conversation core in Dafny

This project models the conversation state machine of a Telegram bot that
lets each user create named "agents" (a name plus instructions), list them,
select one to edit, delete or chat with, and relay chat turns to a language
model. With the Telegram, MongoDB and OpenAI calls stripped away, the four
handlers of `main.py` (`/start`, `/create`, the button callback handler and
the catch-all message handler) are pure transitions:

(users collection, chatbots collection, user id, event) → (users collection, chatbots collection, reply, prompt sent to the model)

- `optional.dfy` (`Optional`): the `Option` type used for missing fields and failed lookups.
- `text.dfy` (`Text`): Python's `startswith`, `in` on strings and `replace(p, "")`, which drops every non-overlapping occurrence of `p` from the left.
- `sessions.dfy` (`Sessions`): the `users` collection as a map from sender id to a document with optional `state`, `bot_name`, `selected_bot` and `chatbot` fields. `update_one` creates a missing document only where the code passes `upsert=True`.
- `agents.dfy` (`Agents`): the `chatbots` collection as a sequence in insertion order. `find_one`, `update_one` and `delete_one` act on the first document matching `(owner, name)`. `find` returns matches in store order. `insert_one` appends without looking for duplicates.
- `bot.dfy` (`Bot`): the callback router, every callback arm, every text branch, and `Step`, which applies one handler's event.
- `dispatch.dfy` (`Dispatch`): one text message delivered to every handler it triggers. `/start` and `/create` are registered with a pattern, and `re.match` fires them on any text that begins with the command. The catch-all handler fires on every message, commands included.
- `flows.dfy` (`Flows`): properties of several events in a row and of every run that starts from empty collections.

The language model is the parameter `ai: string -> string`. It stands for `get_openai_response`, including its conversion of an exception into an `"Error: …"` string. Replies are an abstract datatype: the emoji wording is left out, and the buttons are kept with their callback payloads, including the two menu buttons of the `/start` menu and of the recovery menu.

Behaviour of the code that a reader might not expect:
- `insert_one` appends a second document for a name the user already has. Every later `find_one`/`update_one`/`delete_one` reaches the OLDER one, so the new agent is shadowed until the older one is deleted (`Flows.CreateThenChat`, `Agents.FindFirstAppend`).
- The listing appends the Back button before it tests for an empty list, so the "no chatbots found" reply is never sent (`Bot.ListAgents`).
- The select and chat payloads are parsed with `replace(prefix, "")`, which drops every occurrence of the prefix, not just the leading one. A name round-trips exactly when it does not contain the prefix (`Text.StripPrefixRoundTrip`, `Flows.ListThenSelect`, `Flows.SelectThenChat`).
- The only commands with their own handlers are `/start` and `/create`. Any other text, `/list` and `/stop` included, is an ordinary text dispatched on the user's state.
- A `/start` or `/create` message reaches its pattern handler AND the catch-all handler (see "## Findings").

Python behaviour made explicit:
- `if selected_bot:` is truthiness, so an empty selected name counts as absent (`Sessions.Truthy`).
- `find_one(...)` returns `None` for a user without a document. `.get` on `None` then raises, and the `except` arm re-sends the menu (`Reply.Recovery`). This is distinct from the `/start` menu (`Reply.Welcome`).
- `user_data["bot_name"]` raises when the field is missing. The text handler then recovers before inserting anything. `Flows.TextRecoversOnlyForUnknownUsers` shows that no state reachable from empty collections has that field missing.
- The chat branch reads `chatbot` with `.get` and no truthiness test. An empty name is still looked up. A missing one is a `None` filter, which matches no agent, because every stored agent has a string name.

## Model

| member | source | states |
|---|---|---|
| Text.RemoveAll | main.py:91 | `replace(prefix, "")` never lengthens a payload, and removes at least the prefix's length when the payload starts with it |
| Text.RemoveAllFixedIff | main.py:116 | removing every occurrence of the prefix leaves a string unchanged exactly when the prefix does not occur in it |
| Text.StripPrefixRoundTrip | main.py:90-91 | stripping the prefix from prefix + x gives back x exactly when x does not contain the prefix |
| Agents.FindFirst | main.py:175 | `find_one` yields the first document matching `(owner, name)`, or none when no document matches |
| Agents.OwnedBy | main.py:78 | `find({"owner": u})` holds exactly the documents of the store owned by `u` |
| Agents.OwnedByConcat | main.py:78-79 | the owner's listing of a concatenation is the concatenation of the listings, so listings keep store order |
| Agents.ModifyFirst | main.py:163 | `update_one` changes only the first matching document, keeps the length, and changes nothing without a match |
| Agents.DeleteFirst | main.py:111 | `delete_one` removes exactly the first matching document and shifts the later ones down by one; without a match the store is unchanged |
| Agents.DeleteFirstSlices | main.py:111 | the store after `delete_one` is the part before the first match followed by the part after it |
| Agents.FindFirstAppend | main.py:151-156 | appending a document never moves an existing first match, so a same-name agent created later is shadowed; without an earlier match the appended agent is found |
| Sessions.UpdateOne | main.py:62 | `update_one` applies its change to the user's document, creates the document only with upsert, and leaves every other user's document alone |
| Bot.ChatPrompt | main.py:177 | the chat prompt starts with the agent's instructions, contains the user's text, and is exactly 11 marker characters longer than the two, with the text readable back between the markers |
| Bot.ExactPayloadsUnprefixed | main.py:72-116 | no fixed payload starts with "select_" or "chat_", and no payload starts with both |
| Bot.Route | main.py:72-121 | a payload reaches the select arm exactly when it starts with "select_", the chat arm exactly when it starts with "chat_", nothing for any other unknown payload, and the second `main_menu` arm never |
| Bot.BeginCreate | main.py:59-63 | `/create` (and "create_agent") puts the user in `creating_bot`, creating the document if missing, keeping its other fields, touching no agent |
| Bot.ListAgents | main.py:77-85 | the listing is one select button per owned agent in store order plus a final Back button; the "no chatbots" reply is never sent |
| Bot.SelectAgent | main.py:90-100 | a "select_" payload stores the stripped name as `selected_bot` only for a user with a document, and always answers with that name's action menu |
| Bot.EditAgent | main.py:102-106 | "edit_bot" enters `editing_bot` only with a non-empty selection, does nothing without one, and recovers to the menu for a user without a document |
| Bot.DeleteAgent | main.py:108-113 | "delete_bot" removes at most the first of the user's agents with the selected name, keeps the others in order, unsets `selected_bot`, and confirms even when nothing was removed |
| Bot.OpenChat | main.py:115-118 | a "chat_" payload sets `state` to chatting and `chatbot` to the stripped name for a user with a document, and always confirms |
| Bot.OnCallback | main.py:66-128 | a button never calls the model, only "delete_bot" can change the agents, unknown payloads do nothing, and no other user's document changes |
| Bot.SaveName | main.py:144-146 | in `creating_bot` a text becomes `bot_name` and the state becomes `waiting_for_instructions`; the other fields and the agents are unchanged |
| Bot.CreateAgent | main.py:149-158 | in `waiting_for_instructions` exactly one agent (owner, pending name, text, no messages) is appended after the unchanged existing agents, and `state` and `bot_name` are unset |
| Bot.EditInstructions | main.py:160-165 | in `editing_bot` only the instructions of the first matching agent change, its messages and every other agent stay, `state` is unset and `selected_bot` kept |
| Bot.StopChat | main.py:170-173 | "/stop" unsets `state` and `chatbot` together, calls no model and leaves the agents unchanged |
| Bot.ChatTurn | main.py:168-185 | a chat turn prompts with exactly the `f"{instructions}\nUser: {text}\nAI:"` prompt of the first matching agent, appends exactly that one exchange to that agent only, keeps the sessions, and does nothing without a matching agent |
| Bot.OnText | main.py:133-193 | a user without a document gets the menu and nothing changes, a user without a state gets nothing, the model is called only while chatting and never for "/stop", and the menu appears only for a missing document or missing pending name |
| Bot.Step | main.py:43-193 | one handler's event changes no other user's document, the `start` handler only sends the menu, and the model is called only for a chatting user's text |
| Flows.CreateFlow | main.py:72-158 | as handler events, the "Create Agent" button, a name, then instructions append exactly one agent with that name and those instructions and no messages, whatever the store held, and clear the state |
| Flows.ListThenSelect | main.py:79-92 | tapping a listed agent's button selects that agent exactly when its name does not contain "select_" |
| Flows.AgentNamedSelectIsLost | main.py:91 | an agent named "select_" is selected under the empty name |
| Flows.SelectThenChat | main.py:97-117 | the chat button of a selected agent opens a chat with that name exactly when the name does not contain "chat_" |
| Flows.OpenThenChat | main.py:115-185 | as handler events, opening a chat then sending text prompts with exactly the first matching agent's chat prompt for the text, and records that one exchange on that agent |
| Flows.CreateThenChat | main.py:72-185 | as handler events, after creating an agent through the "Create Agent" button and chatting with it, the prompt starts with the new instructions when the name was free and with the older agent's instructions otherwise, and contains the text |
| Flows.CallbackKeepsWellFormed | main.py:117 | buttons never leave a user chatting without a `chatbot` or waiting for instructions without a `bot_name` |
| Flows.TextKeepsWellFormed | main.py:145-171 | text messages never leave a user chatting without a `chatbot` or waiting for instructions without a `bot_name` |
| Flows.StepKeepsWellFormed | main.py:59-193 | every event keeps those field combinations |
| Flows.Run | main.py:132-193 | any sequence of events from well-formed documents ends in well-formed documents |
| Flows.TextRecoversOnlyForUnknownUsers | main.py:138-150 | as handler events, after any run from empty collections, the catch-all handler produces the recovery menu exactly when the sender has no document |
| Flows.DeleteKeepsOtherOwners | main.py:111 | deleting one of a user's agents leaves every other owner's listing, and its order, unchanged |
| Flows.CallbackKeepsOtherOwners | main.py:108-113 | a button from one user leaves every other owner's agents unchanged |
| Flows.TextKeepsOtherOwners | main.py:151-183 | a text from one user leaves every other owner's agents unchanged |
| Flows.OtherOwnersUntouched | main.py:59-193 | no event from one user changes another owner's agents or their order |
| Dispatch.Apply | main.py:43-193 | running several handlers on one message changes no other user's document, sends at most one reply per handler after the earlier replies, and calls the model only from the catch-all handler |
| Dispatch.PatternEvents | main.py:43-59 | a text triggers the `start` handler exactly when it begins with "/start" and the `create` handler exactly when it begins with "/create" |
| Dispatch.Deliver | main.py:43-133 | a message changes no other user's document, a text that is not a command is exactly one catch-all step, and there is at most one reply per triggered handler |
| Dispatch.DeliverIntended | main.py:43-193 | the corrected delivery: a command reaches only its own handler, so "/start" only sends the menu and "/create" only starts the flow, calling no model and touching no agent, while any other text is delivered as the code does |
| Flows.DeliverName | main.py:144-146 | a plain text from a user in `creating_bot` becomes the pending name and touches no agent |
| Flows.DeliverInstructions | main.py:149-158 | a plain text from a user waiting for instructions appends exactly the pending agent and clears the state |
| Flows.DeliverWithoutState | main.py:140-144 | a plain text from a user with a document but no state changes nothing and gets no reply |
| Flows.DeliverCreateAsWritten | main.py:58-146 | in registration order, any text beginning with "/create", from a user in any state, leaves the user waiting for instructions with that whole text as the pending name, touches no agent and calls no model |
| Flows.CreateCommandAsWritten | main.py:58-158 | in registration order, "/create", a name and instructions create an agent CALLED "/create" whose instructions are the name, and the instructions are dropped without a reply |
| Flows.CreateCommandIntended | main.py:58-158 | with a command reaching only its own handler, "/create", a name and instructions create exactly the intended agent from any state |
| Flows.DeliverStartAsWritten | main.py:43-133 | in registration order, any text beginning with "/start" sends the menu and then runs the catch-all handler on the text as an ordinary text in the user's state |
| Flows.StartMessageReachesModel | main.py:43-185 | "/start" from a chatting user is also sent to the model as a chat turn and recorded on the agent, while the corrected delivery only sends the menu |
| Flows.DeliverAsOneStep | main.py:43-193 | a message that does not begin with "/create" changes the collections and prompts the model exactly as the catch-all handler alone, with the menu before its reply when it begins with "/start" |
| Flows.CreateFlowDelivered | main.py:72-158 | as whole messages, the "Create Agent" button, a name, then instructions, neither beginning with "/create", append exactly the intended agent, clear the state, end with the confirmation and call no model |
| Flows.ChatStep | main.py:168-185 | the catch-all handler on a chatting user's text other than "/stop" sends exactly the agent's chat prompt, answers with the model's reply and records that exchange on the agent |
| Flows.ChatDelivered | main.py:131-185 | as a whole message, a chatting user's text that is not "/stop" and does not begin with "/create" reaches the model with exactly the agent's chat prompt, is recorded on the agent, and is answered last |
| Flows.OpenThenChatDelivered | main.py:115-185 | as whole messages, opening a chat then sending a text that does not begin with "/create" prompts with exactly the first matching agent's chat prompt and records that exchange |
| Flows.CreateThenChatDelivered | main.py:72-185 | as whole messages whose texts do not begin with "/create", the chat after creating an agent is prompted from the new instructions when the name was free and from the older agent's otherwise |
| Flows.InterleavedCreate | main.py:59-158 | when the catch-all handler for a second text runs between `create` and the catch-all handler for "/create", the agent is named by the second text and its instructions are "/create" |

## Left out

- Telegram transport: client setup, the typing indicator (main.py:136), message delivery, the emoji wording of replies, and how buttons are laid out in rows. Replies are an abstract datatype, and buttons are kept with their payloads.
- The OpenAI client (main.py:30-40) is the parameter `ai`. Its model name, tools, and error-to-string conversion are not modelled.
- MongoDB connection, `_id` values and query syntax. The two collections are an in-memory map and sequence. Failures of the database itself, such as network errors that would also reach the `except` arms, are not modelled.
- `state` is a closed enumeration of the four values the code writes. A document with some other `state` string behaves like one without a `state`.
- `Bot.Step` takes one handler's event. A text beginning with `/start` is `StartCommand` plus `Message(text)`, and one beginning with `/create` is `CreateCommand` plus `Message(text)`. Telethon awaits the handlers of one update one after another in registration order (`start`, `create`, the callback handler, `handle_messages`), which is the order `Dispatch.Deliver` uses.
- Dispatch.Deliver: assumes each message is handled completely before the next one starts. The client is built without `sequential_updates=True` (main.py:25), so Telethon runs every update as its own task, and the handlers of two messages from one user can interleave at each `await`, starting with the typing request (main.py:136) that comes before the state is read (main.py:140). For example, "/create" followed quickly by "Helper" can create an agent named "Helper" with instructions "/create" (`Flows.InterleavedCreate`). No handler awaits between its database reads and writes, because pymongo and the OpenAI client are synchronous, so every interleaving is a sequence of `Bot.Step`s and `Flows.Run`, `Flows.StepKeepsWellFormed` and `Flows.OtherOwnersUntouched` cover it. The lemmas that chain whole messages (`Flows.CreateCommandAsWritten`, `Flows.CreateCommandIntended`, `Flows.CreateFlowDelivered`, `Flows.OpenThenChatDelivered`, `Flows.CreateThenChatDelivered`, `Flows.StartMessageReachesModel`) and the first input under "## Findings" describe messages sent one at a time.
- Pattern matching is reduced to "the text begins with the command", which is what `re.match` does for these two patterns. Other regular-expression features are not modelled.
- Callback payloads are strings; their byte decoding is left out.
- Bot.OnText: does not model a failed reply. Every `event.respond` of `handle_messages` is inside the `try` (main.py:146, 158, 165, 185), so a reply Telegram rejects, such as a chat answer over its 4096-character limit, leads to the recovery menu after the store has already been updated (main.py:181-183, 186-193). The model always sends the reply.
- Bot.OnCallback: does not model a failed reply either. A `respond` that raises inside the callback `try` sends the recovery menu after the collections have been updated (main.py:123-128).
- Bot.ListAgents: does not model Telegram's 64-byte limit on callback data. Telethon's `Button.inline` raises `ValueError` for longer data, so a single owned agent whose name is over 57 UTF-8 bytes makes the whole listing fail into the recovery menu (main.py:79, 123-128). The model always sends the listing.
- Environment loading, startup, `print`, and traceback logging are left out.
- Flows.CreateFlow, Flows.OpenThenChat, Flows.CreateThenChat, Flows.TextRecoversOnlyForUnknownUsers: handler-level statements; a text beginning with "/create" also runs `create` and restarts the flow (`Flows.DeliverCreateAsWritten`). The `…Delivered` lemmas state these flows for whole messages that do not begin with "/create". A whole "/create" message from a user with no document gets no recovery menu, because `create` creates the document before the catch-all handler runs.
- Flows.CreateThenChat: does not restate that the exchange is appended to the agent's transcript. Flows.OpenThenChat, which it calls, states that.

## Findings

| source | as written | input that shows it | evidently intended | confidence | as-written member | corrected member |
|---|---|---|---|---|---|---|
| main.py:58-63, 131-158 | the catch-all handler also receives the "/create" message; after `create` has set `creating_bot` it stores "/create" as the pending name | "/create", then "Helper", then "Be brief": an agent named "/create" with instructions "Helper" is created and "Be brief" is dropped | "/create" starts the flow, the next text is the name and the one after is the instructions | high for messages sent one at a time; not executed | Flows.CreateCommandAsWritten | Flows.CreateCommandIntended |
| main.py:43-56, 131-133, 168-185 | the catch-all handler also receives the "/start" message; a chatting user's "/start" is sent to the model and recorded as a chat turn | a user chatting with an existing agent sends "/start" | "/start" only shows the menu | high; not executed | Flows.StartMessageReachesModel | Dispatch.DeliverIntended |

Each handler is modelled as written (`Bot.Step`), so the handler-level flows are unchanged. `Dispatch.Deliver` is the message-level behaviour as written, and `Dispatch.DeliverIntended` is the corrected message-level behaviour, in which a command reaches only its own handler.

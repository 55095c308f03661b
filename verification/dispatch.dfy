/** Delivery of one Telegram text message to every handler it triggers.
    `start` and `create` are registered with `NewMessage(pattern=…)`, which
    fires on any text that BEGINS with the command; `handle_messages` is
    registered with a bare `NewMessage` and fires on every message,
    commands included. */
module Dispatch {
  import opened Optional
  import opened Text
  import opened Sessions
  import opened Agents
  import opened Bot

  const StartText := "/start"
  const CreateText := "/create"

  /** The text triggers the `start` or the `create` handler. */
  predicate IsCommand(text: string) {
    StartsWith(text, StartText) || StartsWith(text, CreateText)
  }

  /** The collections after a message, every reply sent for it in order,
      and every prompt passed to the language model in order. */
  datatype Delivery = Delivery(sessions: SessionMap, store: Store, replies: seq<Reply>, prompts: seq<string>)

  /** Runs the handler events `evs` for user `u`, one after the other. */
  function Apply(d: Delivery, u: UserId, evs: seq<Event>, ai: string -> string): (r: Delivery)
    ensures SameExcept(d.sessions, r.sessions, u)
    ensures |d.replies| <= |r.replies| <= |d.replies| + |evs|
    ensures r.replies[..|d.replies|] == d.replies
    ensures (forall k :: 0 <= k < |evs| ==> !evs[k].Message?) ==> r.prompts == d.prompts
    decreases |evs|
  {
    if |evs| == 0 then d
    else
      var o := Step(d.sessions, d.store, u, evs[0], ai);
      var next := Delivery(o.sessions, o.store, d.replies + ToSeq(o.reply), d.prompts + ToSeq(o.prompt));
      var r := Apply(next, u, evs[1..], ai);
      assert next.replies[..|d.replies|] == d.replies;
      assert r.replies[..|d.replies|] == r.replies[..|next.replies|][..|d.replies|];
      r
  }

  /** Running a single handler is one `Step`. */
  lemma ApplySingle(d: Delivery, u: UserId, ev: Event, ai: string -> string)
    ensures
      var o := Step(d.sessions, d.store, u, ev, ai);
      Apply(d, u, [ev], ai) == Delivery(o.sessions, o.store, d.replies + ToSeq(o.reply), d.prompts + ToSeq(o.prompt))
  {
    assert [ev][1..] == [];
  }

  /** No text starts with both commands. */
  lemma CommandsExclusive()
    ensures forall t :: StartsWith(t, StartText) ==> !StartsWith(t, CreateText)
  {
    forall t | StartsWith(t, StartText)
      ensures !StartsWith(t, CreateText)
    {
      assert t[1] == StartText[1];
    }
  }

  /** The pattern handlers a text triggers, in registration order. */
  function PatternEvents(text: string): (evs: seq<Event>)
    ensures IsCommand(text) <==> |evs| > 0
    ensures StartsWith(text, StartText) <==> StartCommand in evs
    ensures StartsWith(text, CreateText) <==> CreateCommand in evs
  {
    (if StartsWith(text, StartText) then [StartCommand] else [])
      + (if StartsWith(text, CreateText) then [CreateCommand] else [])
  }

  /** A message as the code delivers it: its pattern handlers and then the
      catch-all handler, in registration order, with no other message's
      handlers in between. A text that is not a command reaches the
      catch-all handler alone; a command reaches the catch-all handler
      too. */
  function Deliver(s: SessionMap, st: Store, u: UserId, text: string, ai: string -> string): (d: Delivery)
    ensures SameExcept(s, d.sessions, u)
    ensures !IsCommand(text) ==>
      var o := Step(s, st, u, Message(text), ai);
      d == Delivery(o.sessions, o.store, ToSeq(o.reply), ToSeq(o.prompt))
    ensures |d.replies| <= |PatternEvents(text)| + 1
  {
    var handlers := PatternEvents(text);
    var evs := handlers + [Message(text)];
    assert !IsCommand(text) ==> evs == [Message(text)];
    ApplySingle(Delivery(s, st, [], []), u, Message(text), ai);
    Apply(Delivery(s, st, [], []), u, evs, ai)
  }

  /** A message as the handlers evidently intend it: a command reaches only
      its own handler, so it is never taken as a name, as instructions or
      as a chat turn; any other text reaches the catch-all handler as in
      `Deliver`. */
  function DeliverIntended(s: SessionMap, st: Store, u: UserId, text: string, ai: string -> string): (d: Delivery)
    ensures SameExcept(s, d.sessions, u)
    ensures |d.replies| <= 1
    ensures IsCommand(text) ==> d.prompts == [] && d.store == st
    ensures StartsWith(text, StartText) ==> d == Delivery(s, st, [Welcome(MenuButtons)], [])
    ensures StartsWith(text, CreateText) ==>
      && u in d.sessions && d.sessions[u].state == Some(CreatingBot)
      && d.replies == [AskName]
    ensures !IsCommand(text) ==> d == Deliver(s, st, u, text, ai)
  {
    CommandsExclusive();
    if StartsWith(text, StartText) then Apply(Delivery(s, st, [], []), u, [StartCommand], ai)
    else if StartsWith(text, CreateText) then Apply(Delivery(s, st, [], []), u, [CreateCommand], ai)
    else Apply(Delivery(s, st, [], []), u, [Message(text)], ai)
  }
}

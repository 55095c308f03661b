/** The `users` collection: one document per Telegram user, keyed by the
    sender id, holding the fields the conversation writes. */
module Sessions {
  import opened Optional

  /** Telegram's sender id, used as the document `_id`. */
  type UserId = int

  /** The values the bot ever writes into a user's `state` field. */
  datatype Phase = CreatingBot | WaitingForInstructions | EditingBot | Chatting

  /** A user document; a field that is not set is `None`. */
  datatype Session = Session(
    state: Option<Phase>,
    botName: Option<string>,
    selectedBot: Option<string>,
    chatbot: Option<string>)

  /** The document an upsert creates before applying its `$set`. */
  const Blank := Session(None, None, None, None)

  type SessionMap = map<UserId, Session>

  /** Python truthiness of a field read with `.get`: present and not the
      empty string. */
  predicate Truthy(field: Option<string>) {
    field.Some? && field.value != ""
  }

  /** Every user other than `u` has the same document (or none) in `m` and `m'`. */
  ghost predicate SameExcept(m: SessionMap, m': SessionMap, u: UserId) {
    forall v :: v != u ==> (v in m' <==> v in m) && (v in m ==> m'[v] == m[v])
  }

  /** `update_one({"_id": u}, change, upsert=upsert)`: applies `change` to
      the user's document; a missing document is created from `Blank` only
      when `upsert` is set, and is otherwise left missing. */
  function UpdateOne(m: SessionMap, u: UserId, change: Session -> Session, upsert: bool): (m': SessionMap)
    ensures u in m' <==> u in m || upsert
    ensures u in m ==> m'[u] == change(m[u])
    ensures u !in m && upsert ==> m'[u] == change(Blank)
    ensures SameExcept(m, m', u)
  {
    if u in m then m[u := change(m[u])]
    else if upsert then m[u := change(Blank)]
    else m
  }

  /** The field combinations the text handler relies on: a user waiting for
      instructions has a pending name, and a chatting user has a chatbot. */
  predicate WellFormed(sess: Session) {
    && (sess.state == Some(WaitingForInstructions) ==> sess.botName.Some?)
    && (sess.state == Some(Chatting) ==> sess.chatbot.Some?)
  }

  predicate AllWellFormed(m: SessionMap) {
    forall v :: v in m ==> WellFormed(m[v])
  }
}

/** The `chatbots` collection as an insertion-ordered sequence of documents.
    Queries match on `(owner, name)`; `find_one`, `update_one` and
    `delete_one` act on the first match and `find` returns store order. */
module Agents {
  import opened Optional
  import opened Sessions

  /** One exchange in a chatbot's transcript. */
  datatype Turn = Turn(user: string, bot: string)

  /** A chatbot document. */
  datatype Agent = Agent(owner: UserId, name: string, instructions: string, messages: seq<Turn>)

  type Store = seq<Agent>

  /** The query `{"owner": owner, "name": name}` selects `a`. */
  predicate Matches(a: Agent, owner: UserId, name: string) {
    a.owner == owner && a.name == name
  }

  /** The position `find_one({"owner": owner, "name": name})` returns: the
      first matching document, if any. */
  function FindFirst(store: Store, owner: UserId, name: string): (r: Option<nat>)
    ensures r.Some? ==> r.value < |store| && Matches(store[r.value], owner, name)
    ensures r.Some? ==> forall j :: 0 <= j < r.value ==> !Matches(store[j], owner, name)
    ensures r.None? ==> forall j :: 0 <= j < |store| ==> !Matches(store[j], owner, name)
  {
    if |store| == 0 then None
    else if Matches(store[0], owner, name) then Some(0)
    else match FindFirst(store[1..], owner, name)
      case None => None
      case Some(i) => Some(i + 1)
  }

  /** `find({"owner": owner})`: the owner's documents in store order. */
  function OwnedBy(store: Store, owner: UserId): (r: Store)
    ensures |r| <= |store|
    ensures forall a :: a in r <==> a in store && a.owner == owner
  {
    if |store| == 0 then []
    else if store[0].owner == owner then [store[0]] + OwnedBy(store[1..], owner)
    else OwnedBy(store[1..], owner)
  }

  /** `update_one({"owner": owner, "name": name}, …)`: applies `f` to the
      first matching document; without a match the store is unchanged. */
  function ModifyFirst(store: Store, owner: UserId, name: string, f: Agent -> Agent): (r: Store)
    ensures |r| == |store|
    ensures FindFirst(store, owner, name).None? ==> r == store
    ensures FindFirst(store, owner, name).Some? ==>
      var i := FindFirst(store, owner, name).value;
      r[i] == f(store[i]) && forall j :: 0 <= j < |store| && j != i ==> r[j] == store[j]
  {
    if |store| == 0 then []
    else if Matches(store[0], owner, name) then [f(store[0])] + store[1..]
    else [store[0]] + ModifyFirst(store[1..], owner, name, f)
  }

  /** `delete_one({"owner": owner, "name": name})`: removes the first matching
      document and keeps the others in order; without a match the store is
      unchanged. */
  function DeleteFirst(store: Store, owner: UserId, name: string): (r: Store)
    ensures FindFirst(store, owner, name).None? ==> r == store
    ensures FindFirst(store, owner, name).Some? ==>
      var i := FindFirst(store, owner, name).value;
      && |r| == |store| - 1
      && (forall j :: 0 <= j < i ==> r[j] == store[j])
      && (forall j :: i <= j < |r| ==> r[j] == store[j + 1])
  {
    if |store| == 0 then []
    else if Matches(store[0], owner, name) then store[1..]
    else [store[0]] + DeleteFirst(store[1..], owner, name)
  }

  /** The deletion as slices: the documents before the first match, then
      those after it. */
  lemma DeleteFirstSlices(store: Store, owner: UserId, name: string)
    requires FindFirst(store, owner, name).Some?
    ensures
      var i := FindFirst(store, owner, name).value;
      DeleteFirst(store, owner, name) == store[..i] + store[i + 1..]
  {
  }

  /** `find` distributes over concatenation: the result keeps store order. */
  lemma {:induction false} OwnedByConcat(a: Store, b: Store, owner: UserId)
    ensures OwnedBy(a + b, owner) == OwnedBy(a, owner) + OwnedBy(b, owner)
  {
    if |a| == 0 {
      assert a + b == b;
    } else {
      assert (a + b)[1..] == a[1..] + b;
      OwnedByConcat(a[1..], b, owner);
    }
  }

  /** Two stores of equal length that agree on every position holding one of
      `owner`'s documents list the same documents for `owner`. */
  lemma {:induction false} OwnedByAgree(a: Store, b: Store, owner: UserId)
    requires |a| == |b|
    requires forall j :: 0 <= j < |a| && (a[j].owner == owner || b[j].owner == owner) ==> a[j] == b[j]
    ensures OwnedBy(a, owner) == OwnedBy(b, owner)
  {
    if |a| > 0 {
      OwnedByAgree(a[1..], b[1..], owner);
    }
  }

  /** Appending a document never moves the first match of a query that
      already had one, so a later duplicate `(owner, name)` is shadowed; a
      query with no earlier match finds the appended document if it matches. */
  lemma {:induction false} FindFirstAppend(store: Store, a: Agent, owner: UserId, name: string)
    ensures FindFirst(store, owner, name).Some? ==>
      FindFirst(store + [a], owner, name) == FindFirst(store, owner, name)
    ensures FindFirst(store, owner, name).None? && Matches(a, owner, name) ==>
      FindFirst(store + [a], owner, name) == Some(|store|)
    ensures FindFirst(store, owner, name).None? && !Matches(a, owner, name) ==>
      FindFirst(store + [a], owner, name).None?
  {
    if |store| > 0 {
      assert (store + [a])[1..] == store[1..] + [a];
      FindFirstAppend(store[1..], a, owner, name);
    }
  }
}

/** The client-side chat store (lib/store/chat-store.ts): the list of chats
    and the id of the active one. `addChat` asks the server to create a chat
    and, when it succeeds, appends the chat and makes it active;
    `setActiveChat` changes only the active id. The server call is a
    parameter: its outcome is given to `AddChat`. */
module ChatStore {
  import opened Wrappers

  /** `created_at` as the server reports it. `new Date(...)` is modelled as
      keeping that timestamp. */
  type Timestamp = int

  datatype Chat = Chat(id: string, name: string, createdAt: Timestamp)

  /** The chat row `createNewChat` returns. */
  datatype ServerChat = ServerChat(id: string, name: string, createdAt: Timestamp)

  /** What `createNewChat` does: it returns `{ success, chat? }`, or throws. */
  datatype ServerOutcome = Threw | Returned(success: bool, chat: Option<ServerChat>)

  /** The store's state, as a value. */
  datatype StoreState = StoreState(chats: seq<Chat>, activeChatId: Option<string>)

  /** One call on the store. */
  datatype Action = AddChatAction(outcome: ServerOutcome) | SetActiveChatAction(id: string)

  /** The state the store is created with. */
  function Initial(): (s: StoreState)
    ensures s.chats == [] && s.activeChatId.None?
  {
    StoreState([], None)
  }

  /** The chat `addChat` appends, if any: only a successful result that
      carries a chat yields one. */
  function NewChat(outcome: ServerOutcome): (c: Option<Chat>)
    ensures c.Some? <==> outcome.Returned? && outcome.success && outcome.chat.Some?
    ensures c.Some? ==> c.value.id == outcome.chat.value.id && c.value.name == outcome.chat.value.name
                        && c.value.createdAt == outcome.chat.value.createdAt
  {
    match outcome
    case Threw => None
    case Returned(success, chat) =>
      if success && chat.Some? then Some(Chat(chat.value.id, chat.value.name, chat.value.createdAt)) else None
  }

  /** `addChat` on a state: the new state and the returned id. */
  function AddChatStep(s: StoreState, outcome: ServerOutcome): (r: (StoreState, Option<string>))
    // the id is returned exactly when the server produced a chat
    ensures r.1.Some? <==> NewChat(outcome).Some?
    // on success: one more chat, at the end; the earlier ones unchanged and in order;
    // the new chat is active and its id is returned
    ensures r.1.Some? ==>
              && |r.0.chats| == |s.chats| + 1
              && r.0.chats[..|s.chats|] == s.chats
              && r.0.chats[|s.chats|] == NewChat(outcome).value
              && r.0.activeChatId == r.1
              && r.1.value == NewChat(outcome).value.id
    // on failure or a thrown error: null, and the state is untouched
    ensures r.1.None? ==> r.0 == s
  {
    match NewChat(outcome)
    case Some(c) => (StoreState(s.chats + [c], Some(c.id)), Some(c.id))
    case None => (s, None)
  }

  /** `setActiveChat(id)` on a state: the active id becomes `id`, whether or
      not a chat has that id, and the chats are untouched. */
  function SetActiveChatStep(s: StoreState, id: string): (t: StoreState)
    ensures t.chats == s.chats && t.activeChatId == Some(id)
  {
    s.(activeChatId := Some(id))
  }

  function Apply(s: StoreState, a: Action): StoreState {
    match a
    case AddChatAction(outcome) => AddChatStep(s, outcome).0
    case SetActiveChatAction(id) => SetActiveChatStep(s, id)
  }

  /** The state after a sequence of calls, in order. */
  function Run(s: StoreState, actions: seq<Action>): StoreState
    decreases |actions|
  {
    if actions == [] then s else Run(Apply(s, actions[0]), actions[1..])
  }

  /** The chats the successful `addChat` calls of a sequence create, in order. */
  function Added(actions: seq<Action>): seq<Chat>
    decreases |actions|
  {
    if actions == [] then []
    else
      var first := if actions[0].AddChatAction? && NewChat(actions[0].outcome).Some?
                   then [NewChat(actions[0].outcome).value] else [];
      first + Added(actions[1..])
  }

  /** The chats a sequence of calls leaves are the earlier ones followed by
      every chat created, in creation order: nothing is removed, reordered
      or deduplicated, and `setActiveChat` never touches the list. */
  lemma {:induction false} RunAppendsAddedChats(s: StoreState, actions: seq<Action>)
    ensures Run(s, actions).chats == s.chats + Added(actions)
    decreases |actions|
  {
    if actions != [] {
      RunAppendsAddedChats(Apply(s, actions[0]), actions[1..]);
    }
  }

  /** The active chat is the last one in the list (or there are no chats
      and no active id). */
  predicate ActiveIsLast(s: StoreState) {
    if s.chats == [] then s.activeChatId.None? else s.activeChatId == Some(s.chats[|s.chats| - 1].id)
  }

  /** `addChat` alone keeps the newest chat active: from a state where the
      last chat is active (the initial state is one), after any sequence of
      `addChat` calls the active id is still the id of the last chat. */
  lemma {:induction false} AddsKeepLastActive(s: StoreState, actions: seq<Action>)
    requires ActiveIsLast(s)
    requires forall i :: 0 <= i < |actions| ==> actions[i].AddChatAction?
    ensures ActiveIsLast(Run(s, actions))
    decreases |actions|
  {
    if actions != [] {
      var next := Apply(s, actions[0]);
      assert ActiveIsLast(next);
      AddsKeepLastActive(next, actions[1..]);
    }
  }

  /** `setActiveChat` does not check its argument: it can make active an id
      that no chat has. */
  lemma SetActiveChatIsUnchecked(s: StoreState, id: string)
    requires forall i :: 0 <= i < |s.chats| ==> s.chats[i].id != id
    ensures var t := SetActiveChatStep(s, id);
            t.activeChatId == Some(id) && forall i :: 0 <= i < |t.chats| ==> t.chats[i].id != id
  {
  }

  /** A created chat whose id is already listed is appended anyway, so the
      id then occurs twice. */
  lemma AddChatKeepsDuplicates(s: StoreState, outcome: ServerOutcome, k: nat)
    requires NewChat(outcome).Some?
    requires k < |s.chats| && s.chats[k].id == NewChat(outcome).value.id
    ensures var t := AddChatStep(s, outcome).0;
            |t.chats| == |s.chats| + 1 && t.chats[k].id == t.chats[|s.chats|].id && k != |s.chats|
  {
  }

  /** The store object: its two fields are replaced through `set`. */
  class Store {
    var chats: seq<Chat>
    var activeChatId: Option<string>

    function State(): StoreState
      reads this
    {
      StoreState(chats, activeChatId)
    }

    constructor ()
      ensures State() == Initial()
    {
      chats := [];
      activeChatId := None;
    }

    /** `addChat`, given the outcome of the server call. */
    method AddChat(outcome: ServerOutcome) returns (id: Option<string>)
      modifies this
      ensures (State(), id) == AddChatStep(old(State()), outcome)
      ensures NewChat(outcome).Some? ==>
                && chats == old(chats) + [NewChat(outcome).value]
                && activeChatId == Some(NewChat(outcome).value.id)
                && id == activeChatId
      ensures NewChat(outcome).None? ==> id.None? && chats == old(chats) && activeChatId == old(activeChatId)
    {
      match outcome
      case Threw =>
        id := None;
      case Returned(success, chat) =>
        if success && chat.Some? {
          var newChat := Chat(chat.value.id, chat.value.name, chat.value.createdAt);
          chats, activeChatId := chats + [newChat], Some(newChat.id);
          id := Some(newChat.id);
        } else {
          id := None;
        }
    }

    /** `setActiveChat(id)`. */
    method SetActiveChat(id: string)
      modifies this`activeChatId
      ensures State() == SetActiveChatStep(old(State()), id)
      ensures activeChatId == Some(id) && chats == old(chats)
    {
      activeChatId := Some(id);
    }
  }
}

/** The `chat` store slice (src/store/chatSlice.js): four fields and five reducers. The payload types
    are left open: `C` for a conversation, `A` for the active-chat value, `M` for a message. */
module ChatSlice {
  import opened Wrappers

  /** The slice's state as a value. */
  datatype State<C, A, M> = State(chats: seq<C>, activeChat: Option<A>, messages: seq<M>, loading: bool)

  /** The dispatched actions, one per reducer. */
  datatype Action<C, A, M> =
    | SetChats(chats: seq<C>)
    | SetActiveChat(activeChat: Option<A>)
    | SetMessages(messages: seq<M>)
    | AddMessage(message: M)
    | SetLoading(loading: bool)

  /** `initialState`. */
  function InitialState<C, A, M>(): State<C, A, M> {
    State([], None, [], false)
  }

  /** `chatSlice.reducer`: each action writes only the field its reducer names. */
  function Reduce<C, A, M>(s: State<C, A, M>, a: Action<C, A, M>): (r: State<C, A, M>)
    ensures !a.SetChats? ==> r.chats == s.chats
    ensures !a.SetActiveChat? ==> r.activeChat == s.activeChat
    ensures !a.SetMessages? && !a.AddMessage? ==> r.messages == s.messages
    ensures !a.SetLoading? ==> r.loading == s.loading
  {
    match a
    case SetChats(cs) => s.(chats := cs)
    case SetActiveChat(ac) => s.(activeChat := ac)
    case SetMessages(ms) => s.(messages := ms)
    case AddMessage(m) => s.(messages := s.messages + [m])
    case SetLoading(b) => s.(loading := b)
  }

  predicate IsSetter<C, A, M>(a: Action<C, A, M>) {
    !a.AddMessage?
  }

  /** Each setter replaces its own field with the payload and no other field. */
  lemma SetterReplacesOnlyItsField<C, A, M>(s: State<C, A, M>, a: Action<C, A, M>)
    requires IsSetter(a)
    ensures var r := Reduce(s, a);
      && (if a.SetChats? then r.chats == a.chats else r.chats == s.chats)
      && (if a.SetActiveChat? then r.activeChat == a.activeChat else r.activeChat == s.activeChat)
      && (if a.SetMessages? then r.messages == a.messages else r.messages == s.messages)
      && (if a.SetLoading? then r.loading == a.loading else r.loading == s.loading)
  {
  }

  /** Dispatching a setter twice with the same payload is dispatching it once. */
  lemma SetterIdempotent<C, A, M>(s: State<C, A, M>, a: Action<C, A, M>)
    requires IsSetter(a)
    ensures Reduce(Reduce(s, a), a) == Reduce(s, a)
  {
  }

  /** `addMessage` grows the messages by one, keeps the old ones as prefix and touches nothing else. */
  lemma AddMessageAppends<C, A, M>(s: State<C, A, M>, m: M)
    ensures var r := Reduce(s, AddMessage(m));
      && |r.messages| == |s.messages| + 1
      && r.messages[..|s.messages|] == s.messages
      && r.messages[|s.messages|] == m
      && r.chats == s.chats && r.activeChat == s.activeChat && r.loading == s.loading
  {
  }

  /** `addMessage` is not idempotent: a second dispatch appends a second copy. */
  lemma AddMessageTwiceAppendsTwice<C, A, M>(s: State<C, A, M>, m: M)
    ensures Reduce(Reduce(s, AddMessage(m)), AddMessage(m)).messages == s.messages + [m, m]
  {
  }

  /** The store, whose reducers write its fields in place. */
  class Store<C, A, M> {
    var chats: seq<C>
    var activeChat: Option<A>
    var messages: seq<M>
    var loading: bool

    function Current(): State<C, A, M>
      reads this
    {
      State(chats, activeChat, messages, loading)
    }

    constructor ()
      ensures Current() == InitialState()
    {
      chats := [];
      activeChat := None;
      messages := [];
      loading := false;
    }

    method DoSetChats(payload: seq<C>)
      modifies this`chats
      ensures chats == payload
      ensures Current() == Reduce(old(Current()), SetChats(payload))
    {
      chats := payload;
    }

    method DoSetActiveChat(payload: Option<A>)
      modifies this`activeChat
      ensures activeChat == payload
      ensures Current() == Reduce(old(Current()), SetActiveChat(payload))
    {
      activeChat := payload;
    }

    method DoSetMessages(payload: seq<M>)
      modifies this`messages
      ensures messages == payload
      ensures Current() == Reduce(old(Current()), SetMessages(payload))
    {
      messages := payload;
    }

    /** `state.messages.push(action.payload)`. */
    method DoAddMessage(payload: M)
      modifies this`messages
      ensures messages == old(messages) + [payload]
      ensures Current() == Reduce(old(Current()), AddMessage(payload))
    {
      messages := messages + [payload];
    }

    method DoSetLoading(payload: bool)
      modifies this`loading
      ensures loading == payload
      ensures Current() == Reduce(old(Current()), SetLoading(payload))
    {
      loading := payload;
    }
  }
}

/** The mock conversation table and the per-conversation message fixtures (src/pages/chat/mockData.js). */
module MockData {
  import opened Wrappers

  /** The `type` property of a conversation record. */
  datatype ChatKind = Group | Private

  /** A conversation record. The last four optional properties are the ones the conversation-list
      pipeline reads (`unreadCount`, `isGroup`, `lastActivity`) and the member list of a group;
      a property a record does not carry is `None`. Presentation-only properties (avatar, presence,
      status text) are not modelled. */
  datatype Chat = Chat(
    id: int,
    name: string,
    kind: Option<ChatKind>,
    lastMessage: Option<string>,
    timestamp: string,
    unread: int,
    unreadCount: Option<int>,
    isGroup: Option<bool>,
    lastActivity: Option<int>,
    members: Option<seq<string>>)

  /** The direction tag (`type`) of a message. */
  datatype Direction = Sent | Received | System

  /** A message record: `id`, `text`, `sender`, `timestamp` and, when the record carries one, `type`.
      Every fixture message carries `type`; the messages the chat page posts do not. */
  datatype Message = Message(id: int, text: string, sender: string, timestamp: string, kind: Option<Direction>)

  /** A fixture conversation: it carries `type` and `unread` but none of the pipeline's properties. */
  function FixtureChat(id: int, name: string, kind: ChatKind, lastMessage: string, timestamp: string,
                       unread: int, members: Option<seq<string>>): Chat
  {
    Chat(id, name, Some(kind), Some(lastMessage), timestamp, unread, None, None, None, members)
  }

  /** `mockChats`. */
  function MockChats(): seq<Chat> {
    [ FixtureChat(1, "Team Project", Group, "Great work everyone!", "10:30 AM", 2,
                  Some(["John Doe", "Jane Smith", "Mike Johnson"])),
      FixtureChat(2, "Jane Smith", Private, "See you tomorrow!", "9:45 AM", 0, None),
      FixtureChat(3, "Design Team", Group, "New mockups are ready", "Yesterday", 5,
                  Some(["John Doe", "Sarah Wilson", "Tom Brown"])),
      FixtureChat(4, "Marketing Sync", Group, "Campaign results are in!", "Yesterday", 3,
                  Some(["Alex Johnson", "Emma Davis", "Ryan Kim"])),
      FixtureChat(5, "Michael Rodriguez", Private, "Let me check those numbers", "Monday", 0, None),
      FixtureChat(6, "Emma Watson", Private, "The presentation looks great!", "Monday", 1, None),
      FixtureChat(7, "Development Team", Group, "Sprint planning tomorrow", "Sunday", 0,
                  Some(["John Doe", "Mike Johnson", "Sophia Chen", "David Park"])) ]
  }

  /** `defaultMessages`: the thread shown for any conversation without its own fixture. */
  function DefaultMessages(): seq<Message> {
    seq(4, k requires 0 <= k < 4 => DefaultMessage(k))
  }

  /** Message `k` (from 0) of the default thread. */
  function DefaultMessage(k: nat): Message {
    match k
    case 0 => Message(1, "Hey, how are you?", "Jane Smith", "10:30 AM", Some(Received))
    case 1 => Message(2, "I'm good, thanks! How about you?", "me", "10:31 AM", Some(Sent))
    case 2 => Message(3, "Working on the new design. It's coming along nicely!", "Jane Smith", "10:32 AM", Some(Received))
    case _ => Message(4, "That's great to hear! Can't wait to see it.", "me", "10:33 AM", Some(Sent))
  }

  /** The thread of conversation 1 (Team Project). */
  function TeamProjectMessages(): seq<Message> {
    seq(7, k requires 0 <= k < 7 => TeamProjectMessage(k))
  }

  /** Message `k` (from 0) of the thread of conversation 1. */
  function TeamProjectMessage(k: nat): Message {
    match k
    case 0 => Message(1, "Welcome to the Team Project channel!", "System", "9:00 AM", Some(System))
    case 1 => Message(2, "I've uploaded the latest requirements document to the shared folder.", "John Doe", "9:15 AM", Some(Received))
    case 2 => Message(3, "Thanks John, I'll take a look.", "me", "9:20 AM", Some(Sent))
    case 3 => Message(4, "We should schedule a review meeting this week.", "Mike Johnson", "9:45 AM", Some(Received))
    case 4 => Message(5, "How about Thursday at 2pm?", "me", "10:00 AM", Some(Sent))
    case 5 => Message(6, "Works for me!", "John Doe", "10:15 AM", Some(Received))
    case _ => Message(7, "Great work everyone!", "Jane Smith", "10:30 AM", Some(Received))
  }

  /** The thread of conversation 3 (Design Team). */
  function DesignTeamMessages(): seq<Message> {
    seq(6, k requires 0 <= k < 6 => DesignTeamMessage(k))
  }

  /** Message `k` (from 0) of the thread of conversation 3. */
  function DesignTeamMessage(k: nat): Message {
    match k
    case 0 => Message(1, "Hey team, I've finished the homepage redesign.", "Sarah Wilson", "Yesterday, 3:15 PM", Some(Received))
    case 1 => Message(2, "It looks amazing! Great work Sarah.", "John Doe", "Yesterday, 3:30 PM", Some(Received))
    case 2 => Message(3, "I agree, the new design is much cleaner.", "me", "Yesterday, 3:45 PM", Some(Sent))
    case 3 => Message(4, "Should we present it to the client tomorrow?", "Tom Brown", "Yesterday, 4:00 PM", Some(Received))
    case 4 => Message(5, "Yes, I think they'll love it.", "me", "Yesterday, 4:15 PM", Some(Sent))
    case _ => Message(6, "New mockups are ready for the about page as well!", "Sarah Wilson", "Yesterday, 5:30 PM", Some(Received))
  }

  /** `messagesMap`: conversation id to its thread. */
  function MessagesMap(): map<int, seq<Message>> {
    map[1 := TeamProjectMessages(), 2 := DefaultMessages(), 3 := DesignTeamMessages()]
  }

  /** `generateInitialMessages(chatId)`: the mapped thread, or the default thread for an unmapped id. */
  function GenerateInitialMessages(chatId: int): (r: seq<Message>)
    ensures r != []
  {
    var table := MessagesMap();
    if chatId in table then table[chatId] else DefaultMessages()
  }

  /** Ids 1 and 3 have their own threads; id 2 and every unmapped id get the default one. */
  lemma GenerateInitialMessagesCases(chatId: int)
    ensures chatId == 1 ==> GenerateInitialMessages(chatId) == TeamProjectMessages()
    ensures chatId == 3 ==> GenerateInitialMessages(chatId) == DesignTeamMessages()
    ensures chatId != 1 && chatId != 3 ==> GenerateInitialMessages(chatId) == DefaultMessages()
  {
  }

  /** Message ids run 1, 2, ..., n in order. */
  predicate IdsAreOneToN(ms: seq<Message>) {
    forall i :: 0 <= i < |ms| ==> ms[i].id == i + 1
  }

  /** Every message carries a `type`. */
  predicate AllTyped(ms: seq<Message>) {
    forall i :: 0 <= i < |ms| ==> ms[i].kind.Some?
  }

  /** A fixture message is authored by `me` exactly when it is tagged `sent`. */
  predicate SenderMatchesDirection(ms: seq<Message>) {
    forall i :: 0 <= i < |ms| ==> (ms[i].sender == "me" <==> ms[i].kind == Some(Sent))
  }

  /** The thread of conversation 1 has seven messages numbered 1..7, and `me` sends exactly the
      `sent` ones; every message carries a `type`. */
  lemma TeamProjectShape()
    ensures |TeamProjectMessages()| == 7
    ensures IdsAreOneToN(TeamProjectMessages()) && SenderMatchesDirection(TeamProjectMessages())
    ensures AllTyped(TeamProjectMessages())
  {
    forall k | 0 <= k < 7
      ensures TeamProjectMessages()[k] == TeamProjectMessage(k)
      ensures TeamProjectMessage(k).id == k + 1
      ensures TeamProjectMessage(k).sender == "me" <==> TeamProjectMessage(k).kind == Some(Sent)
      ensures TeamProjectMessage(k).kind.Some?
    {
      match k
      case 0 =>
      case 1 =>
      case 2 =>
      case 3 =>
      case 4 =>
      case 5 =>
      case _ =>
    }
  }

  /** The thread of conversation 3 has six messages numbered 1..6, and `me` sends exactly the
      `sent` ones; every message carries a `type`. */
  lemma DesignTeamShape()
    ensures |DesignTeamMessages()| == 6
    ensures IdsAreOneToN(DesignTeamMessages()) && SenderMatchesDirection(DesignTeamMessages())
    ensures AllTyped(DesignTeamMessages())
  {
    forall k | 0 <= k < 6
      ensures DesignTeamMessages()[k] == DesignTeamMessage(k)
      ensures DesignTeamMessage(k).id == k + 1
      ensures DesignTeamMessage(k).sender == "me" <==> DesignTeamMessage(k).kind == Some(Sent)
      ensures DesignTeamMessage(k).kind.Some?
    {
      match k
      case 0 =>
      case 1 =>
      case 2 =>
      case 3 =>
      case 4 =>
      case _ =>
    }
  }

  /** The default thread has four messages numbered 1..4, `me` sends exactly the `sent` ones, and
      every message carries a `type`. */
  lemma DefaultShape()
    ensures |DefaultMessages()| == 4
    ensures IdsAreOneToN(DefaultMessages()) && SenderMatchesDirection(DefaultMessages())
    ensures AllTyped(DefaultMessages())
  {
    forall k | 0 <= k < 4
      ensures DefaultMessages()[k] == DefaultMessage(k)
      ensures DefaultMessage(k).id == k + 1
      ensures DefaultMessage(k).sender == "me" <==> DefaultMessage(k).kind == Some(Sent)
      ensures DefaultMessage(k).kind.Some?
    {
      match k
      case 0 =>
      case 1 =>
      case 2 =>
      case _ =>
    }
  }

  /** Every thread the generator returns has 7, 6 or 4 messages, numbered 1..n, and `me` sends
      exactly the `sent` ones; every message carries a `type`. */
  lemma GeneratedThreadShape(chatId: int)
    ensures var r := GenerateInitialMessages(chatId);
      && |r| == (if chatId == 1 then 7 else if chatId == 3 then 6 else 4)
      && IdsAreOneToN(r)
      && SenderMatchesDirection(r)
      && AllTyped(r)
  {
    GenerateInitialMessagesCases(chatId);
    if chatId == 1 {
      TeamProjectShape();
    } else if chatId == 3 {
      DesignTeamShape();
    } else {
      DefaultShape();
    }
  }

  /** The conversation ids of `mockChats` are exactly 1..7, hence distinct, and exactly the group
      conversations carry a member list. */
  lemma MockChatsShape()
    ensures |MockChats()| == 7
    ensures forall i :: 0 <= i < |MockChats()| ==> MockChats()[i].id == i + 1
    ensures forall i, j :: 0 <= i < j < |MockChats()| ==> MockChats()[i].id != MockChats()[j].id
    ensures forall i :: 0 <= i < |MockChats()| ==>
      (MockChats()[i].members.Some? <==> MockChats()[i].kind == Some(Group))
  {
  }

  /** No fixture conversation carries the properties the list pipeline filters and sorts on. */
  lemma MockChatsLackPipelineFields()
    ensures forall c :: c in MockChats() ==> c.unreadCount == None && c.isGroup == None && c.lastActivity == None
  {
  }
}

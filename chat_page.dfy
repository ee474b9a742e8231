/** The chat page that owns the conversation list and the active thread (src/pages/chat/index.jsx). */
module ChatPage {
  import opened Wrappers
  import opened Text
  import opened Seqs
  import opened MockData
  import ChatWindow

  /** A message posted on this page: `id`, `sender`, `text` and `timestamp`, without `type`. */
  function PostedMessage(id: int, sender: string, text: string, timestamp: string): Message {
    Message(id, text, sender, timestamp, None)
  }

  /** JavaScript truthiness of `selectedChat`: absent and id 0 are both falsy. */
  predicate HasSelection(selected: Option<int>) {
    selected.Some? && selected.value != 0
  }

  function NameMatches(query: string): Chat -> bool {
    (chat: Chat) => Contains(Lower(chat.name), Lower(query))
  }

  /** `filteredChats`: the chats whose lower-cased name includes the lower-cased query. */
  function SearchByName(chats: seq<Chat>, query: string): (r: seq<Chat>)
    ensures forall c :: c in r <==> c in chats && Contains(Lower(c.name), Lower(query))
    ensures forall c :: multiset(r)[c] == if Contains(Lower(c.name), Lower(query)) then multiset(chats)[c] else 0
    ensures IsSubsequence(r, chats)
  {
    FilterIsSubsequence(chats, NameMatches(query));
    FilterCount(chats, NameMatches(query));
    Filter(chats, NameMatches(query))
  }

  /** An empty query keeps every chat, in order. */
  lemma EmptyQueryKeepsAll(chats: seq<Chat>)
    ensures SearchByName(chats, "") == chats
  {
    forall i | 0 <= i < |chats|
      ensures NameMatches("")(chats[i])
    {
      ContainsEmpty(Lower(chats[i].name));
    }
    FilterKeepsAll(chats, NameMatches(""));
  }

  /** The record `createNewChat` builds: no `type`, no pipeline properties, unread 0. */
  function NewChat(now: int, count: nat, isoNow: string): Chat {
    Chat(now, "New Chat " + NatToString(count + 1), None, Some("Start a new conversation"), isoNow,
         0, None, None, None, None)
  }

  /** The bot's answer to a posted text: a fixed prefix, then the text whole. */
  function BotAnswer(text: string): (r: string)
    ensures |r| == |text| + 13 && r[13..] == text && r[..13] == "Response to: "
  {
    "Response to: " + text
  }

  class Page {
    var darkMode: bool
    var sidebarOpen: bool
    var selectedChat: Option<int>
    var chats: seq<Chat>
    var messages: seq<Message>
    var newMessage: string
    var searchQuery: string
    var isTyping: bool

    constructor ()
      ensures !darkMode && sidebarOpen && selectedChat == None && chats == MockChats()
      ensures messages == [] && newMessage == "" && searchQuery == "" && !isTyping
    {
      darkMode := false;
      sidebarOpen := true;
      selectedChat := None;
      chats := MockChats();
      messages := [];
      newMessage := "";
      searchQuery := "";
      isTyping := false;
    }

    /** The effect on `chats`: with chats present and nothing selected, the first chat is selected
        and its thread loaded; otherwise nothing changes. */
    method LoadInitialData()
      modifies this
      ensures |old(chats)| > 0 && !HasSelection(old(selectedChat)) ==>
        selectedChat == Some(old(chats)[0].id) && messages == GenerateInitialMessages(old(chats)[0].id)
      ensures !(|old(chats)| > 0 && !HasSelection(old(selectedChat))) ==>
        selectedChat == old(selectedChat) && messages == old(messages)
      ensures chats == old(chats) && darkMode == old(darkMode) && sidebarOpen == old(sidebarOpen)
      ensures newMessage == old(newMessage) && searchQuery == old(searchQuery) && isTyping == old(isTyping)
    {
      if |chats| > 0 && !HasSelection(selectedChat) {
        selectedChat := Some(chats[0].id);
        messages := GenerateInitialMessages(chats[0].id);
      }
    }

    method ToggleSidebar()
      modifies this`sidebarOpen
      ensures sidebarOpen == !old(sidebarOpen)
    {
      sidebarOpen := !sidebarOpen;
    }

    method ToggleDarkMode()
      modifies this`darkMode
      ensures darkMode == !old(darkMode)
    {
      darkMode := !darkMode;
    }

    /** `handleChatSelect`: select the id and reload its fixture thread; on a narrow viewport
        (`window.innerWidth < 768`) the sidebar closes. */
    method HandleChatSelect(chatId: int, narrowViewport: bool)
      modifies this
      ensures selectedChat == Some(chatId) && messages == GenerateInitialMessages(chatId)
      ensures sidebarOpen == (old(sidebarOpen) && !narrowViewport)
      ensures chats == old(chats) && darkMode == old(darkMode)
      ensures newMessage == old(newMessage) && searchQuery == old(searchQuery) && isTyping == old(isTyping)
    {
      selectedChat := Some(chatId);
      messages := GenerateInitialMessages(chatId);
      if narrowViewport {
        sidebarOpen := false;
      }
    }

    /** `handleSendMessage`: a blank composer changes nothing; otherwise the user's message is
        appended, the composer cleared and the typing indicator shown. The returned text is what the
        delayed answer will quote. */
    method HandleSendMessage(now: int, isoNow: string) returns (pending: Option<string>)
      modifies this
      ensures IsBlank(old(newMessage)) ==> pending == None && unchanged(this)
      ensures !IsBlank(old(newMessage)) ==>
        && pending == Some(old(newMessage))
        && messages == old(messages) + [PostedMessage(now, "user", old(newMessage), isoNow)]
        && newMessage == "" && isTyping
        && chats == old(chats) && selectedChat == old(selectedChat) && darkMode == old(darkMode)
        && sidebarOpen == old(sidebarOpen) && searchQuery == old(searchQuery)
    {
      if Trim(newMessage) == "" {
        return None;
      }
      pending := Some(newMessage);
      messages := messages + [PostedMessage(now, "user", newMessage, isoNow)];
      newMessage := "";
      isTyping := true;
    }

    /** The 1500 ms timer: the bot's answer is appended and the typing indicator hidden. */
    method ReceiveBotReply(text: string, now: int, isoNow: string)
      modifies this
      ensures messages == old(messages) + [PostedMessage(now + 1, "bot", BotAnswer(text), isoNow)]
      ensures !isTyping
      ensures chats == old(chats) && selectedChat == old(selectedChat) && darkMode == old(darkMode)
      ensures sidebarOpen == old(sidebarOpen) && newMessage == old(newMessage) && searchQuery == old(searchQuery)
    {
      messages := messages + [PostedMessage(now + 1, "bot", BotAnswer(text), isoNow)];
      isTyping := false;
    }

    /** `handleKeyPress`: Enter without Shift sends. */
    method HandleKeyPress(key: string, shiftKey: bool, now: int, isoNow: string) returns (pending: Option<string>)
      modifies this
      ensures !ChatWindow.SendsOnKey(key, shiftKey) || IsBlank(old(newMessage)) ==> pending == None && unchanged(this)
      ensures ChatWindow.SendsOnKey(key, shiftKey) && !IsBlank(old(newMessage)) ==>
        && pending == Some(old(newMessage))
        && messages == old(messages) + [PostedMessage(now, "user", old(newMessage), isoNow)]
        && newMessage == "" && isTyping
        && chats == old(chats) && selectedChat == old(selectedChat) && darkMode == old(darkMode)
        && sidebarOpen == old(sidebarOpen) && searchQuery == old(searchQuery)
    {
      pending := None;
      if ChatWindow.SendsOnKey(key, shiftKey) {
        pending := HandleSendMessage(now, isoNow);
      }
    }

    /** `createNewChat`: a chat numbered after the current count goes first, is selected, and its
        thread starts empty. */
    method CreateNewChat(now: int, isoNow: string)
      modifies this
      ensures chats == [NewChat(now, |old(chats)|, isoNow)] + old(chats)
      ensures selectedChat == Some(now) && messages == []
      ensures darkMode == old(darkMode) && sidebarOpen == old(sidebarOpen)
      ensures newMessage == old(newMessage) && searchQuery == old(searchQuery) && isTyping == old(isTyping)
    {
      chats := [NewChat(now, |chats|, isoNow)] + chats;
      selectedChat := Some(now);
      messages := [];
    }
  }

  /** The new chat's number is the old count plus one, written in decimal. */
  lemma NewChatNumbering(now: int, count: nat, isoNow: string)
    ensures var c := NewChat(now, count, isoNow);
      |c.name| > 9 && c.name[..9] == "New Chat " && DigitsValue(c.name[9..]) == count + 1
      && c.name[9] != '0'
      && c.unread == 0 && c.id == now
  {
    var c := NewChat(now, count, isoNow);
    assert c.name[9..] == NatToString(count + 1);
    NatToStringRoundTrip(count + 1);
  }

  /** Mounting the page selects conversation 1 and shows its seven-message thread. */
  method MountAndLoad() returns (page: Page)
    ensures fresh(page)
    ensures page.selectedChat == Some(1) && page.messages == GenerateInitialMessages(1) && |page.messages| == 7
  {
    page := new Page();
    page.LoadInitialData();
    GeneratedThreadShape(1);
  }
}

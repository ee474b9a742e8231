/** The message thread and composer of one conversation (src/pages/chat/ChatWindow.jsx). The
    component's state is a class; the delayed callbacks that `handleSendMessage` schedules are
    explicit step methods the caller runs in order. */
module ChatWindow {
  import opened Wrappers
  import opened Text
  import opened Seqs
  import MockData

  type Direction = MockData.Direction

  /** The delivery-status tag. */
  datatype Status = Sending | Delivered | Read

  /** `viewMode`: 'standard', 'compact' or 'focused'. */
  datatype ViewMode = Standard | Compact | Focused

  /** A thread message. `replyTo` is the whole message being answered, as the source stores it. */
  datatype Message = Message(id: int, text: string, sender: string, timestamp: string, kind: Direction,
                             status: Status, reactions: seq<string>, replyTo: Option<Message>)

  /** What the timers scheduled by one send need: the new message's id and the thread length the
      send saw (the callbacks close over that render's `messages`). */
  datatype PendingSend = PendingSend(messageId: int, capturedLength: nat)

  /** The four messages the component starts with. */
  function InitialMessages(): (r: seq<Message>)
    ensures |r| == 4 && IdsAreOneToN(r)
  {
    [ Message(1, "Hey, how are you?", "Jane Smith", "10:30 AM", MockData.Received, Read, [], None),
      Message(2, "I'm good, thanks! How about you?", "me", "10:31 AM", MockData.Sent, Delivered, ["\U{1F44D}"], None),
      Message(3, "Working on the new design. It's coming along nicely!", "Jane Smith", "10:32 AM", MockData.Received, Read, [], None),
      Message(4, "That's great to hear! Can't wait to see it.", "me", "10:33 AM", MockData.Sent, Delivered, [], None) ]
  }

  // ---------------------------------------------------------------- message-list computations

  /** The message a send appends to a thread of `length` messages. */
  function OutgoingMessage(length: nat, text: string, now: string, replyTo: Option<Message>): Message {
    Message(length + 1, text, "me", now, MockData.Sent, Sending, [], replyTo)
  }

  /** The simulated answer, numbered from the length the send saw. */
  function ReplyMessage(capturedLength: nat, chatName: string, now: string): Message {
    Message(capturedLength + 2,
            "Thanks for your message! This is a simulated response from " + chatName + ".",
            chatName, now, MockData.Received, Read, [], None)
  }

  /** The `prev.map(...)` of the delivery timer: every message carrying `id` becomes delivered. */
  function MarkDelivered(messages: seq<Message>, id: int): (r: seq<Message>)
    ensures |r| == |messages|
    ensures forall i :: 0 <= i < |r| && messages[i].id == id ==> r[i] == messages[i].(status := Delivered)
    ensures forall i :: 0 <= i < |r| && messages[i].id != id ==> r[i] == messages[i]
  {
    seq(|messages|, i requires 0 <= i < |messages| =>
      if messages[i].id == id then messages[i].(status := Delivered) else messages[i])
  }

  /** Marking twice is marking once. */
  lemma MarkDeliveredIdempotent(messages: seq<Message>, id: int)
    ensures MarkDelivered(MarkDelivered(messages, id), id) == MarkDelivered(messages, id)
  {
  }

  /** `[...new Set(s)]`: the distinct elements of `s` in order of first occurrence. */
  function Dedup(s: seq<string>): (r: seq<string>)
    ensures Distinct(r)
    ensures forall x :: x in r <==> x in s
    ensures forall i, j :: 0 <= i < j < |r| ==> FirstIndex(s, r[i]) < FirstIndex(s, r[j])
    ensures |r| <= |s|
  {
    if s == [] then []
    else
      var front := s[..|s| - 1];
      var init := Dedup(front);
      var last := s[|s| - 1];
      assert s == front + [last];
      assert forall x :: x in s <==> x in front || x == last;
      FirstIndexSnoc(front, last);
      if last in init then init else init + [last]
  }

  /** A duplicate-free sequence is its own set. */
  lemma {:induction false} DedupOfDistinct(s: seq<string>)
    requires Distinct(s)
    ensures Dedup(s) == s
  {
    if s != [] {
      var init, last := s[..|s| - 1], s[|s| - 1];
      assert Distinct(init);
      DedupOfDistinct(init);
      assert last !in init;
      assert s == init + [last];
      DedupSnoc(init, last);
    }
  }

  /** Appending to a sequence dedups to the dedup of the prefix, extended when the element is new. */
  lemma DedupSnoc(s: seq<string>, e: string)
    ensures Dedup(s + [e]) == if e in Dedup(s) then Dedup(s) else Dedup(s) + [e]
  {
    assert (s + [e])[..|s + [e]| - 1] == s;
  }

  /** The new reaction list of `addReaction`. */
  function AddReactionTo(reactions: seq<string>, emoji: string): (r: seq<string>)
    ensures Distinct(r)
    ensures forall x :: x in r <==> x in reactions || x == emoji
  {
    assert forall x :: x in reactions + [emoji] <==> x in reactions || x == emoji;
    Dedup(reactions + [emoji])
  }

  /** On a duplicate-free list the emoji is appended at the end when new, and nothing changes
      otherwise: first-insertion order. */
  lemma AddReactionKeepsOrder(reactions: seq<string>, emoji: string)
    requires Distinct(reactions)
    ensures AddReactionTo(reactions, emoji) == if emoji in reactions then reactions else reactions + [emoji]
  {
    DedupSnoc(reactions, emoji);
    DedupOfDistinct(reactions);
  }

  /** Adding the same reaction again changes nothing. */
  lemma AddReactionIdempotent(reactions: seq<string>, emoji: string)
    ensures AddReactionTo(AddReactionTo(reactions, emoji), emoji) == AddReactionTo(reactions, emoji)
  {
    var once := AddReactionTo(reactions, emoji);
    AddReactionKeepsOrder(once, emoji);
  }

  /** The `prev.map(...)` of `addReaction`. */
  function WithReaction(messages: seq<Message>, id: int, emoji: string): (r: seq<Message>)
    ensures |r| == |messages|
    ensures forall i :: 0 <= i < |r| && messages[i].id == id ==>
      r[i] == messages[i].(reactions := AddReactionTo(messages[i].reactions, emoji))
    ensures forall i :: 0 <= i < |r| && messages[i].id != id ==> r[i] == messages[i]
  {
    seq(|messages|, i requires 0 <= i < |messages| =>
      if messages[i].id == id then messages[i].(reactions := AddReactionTo(messages[i].reactions, emoji))
      else messages[i])
  }

  /** Reacting twice with the same emoji is reacting once. */
  lemma WithReactionIdempotent(messages: seq<Message>, id: int, emoji: string)
    ensures WithReaction(WithReaction(messages, id, emoji), id, emoji) == WithReaction(messages, id, emoji)
  {
    var once := WithReaction(messages, id, emoji);
    forall i | 0 <= i < |messages| && messages[i].id == id {
      AddReactionIdempotent(messages[i].reactions, emoji);
    }
  }

  /** Ids run 1..n. */
  predicate IdsAreOneToN(messages: seq<Message>) {
    forall i :: 0 <= i < |messages| ==> messages[i].id == i + 1
  }

  /** When the reply lands before the next send, numbering by length keeps ids 1..n. */
  lemma SendThenReplyKeepsIds(messages: seq<Message>, text: string, now: string, replyTo: Option<Message>,
                              chatName: string, later: string)
    requires IdsAreOneToN(messages)
    ensures var n := |messages|;
      IdsAreOneToN(MarkDelivered(messages + [OutgoingMessage(n, text, now, replyTo)], n + 1)
                   + [ReplyMessage(n, chatName, later)])
  {
  }

  /** A second send before the first reply gives the reply the id of the second message. */
  lemma InterleavedSendsRepeatAnId(messages: seq<Message>, t1: string, t2: string, now: string, chatName: string)
    ensures var n := |messages|;
      var first := messages + [OutgoingMessage(n, t1, now, None)];
      var second := first + [OutgoingMessage(|first|, t2, now, None)];
      var replied := second + [ReplyMessage(n, chatName, now)];
      replied[|replied| - 1].id == replied[|replied| - 2].id
  {
  }

  // ---------------------------------------------------------------- pure view helpers

  /** The header button's next view mode. */
  function NextViewMode(mode: ViewMode): (r: ViewMode)
    ensures r != mode
  {
    match mode
    case Standard => Compact
    case Compact => Focused
    case Focused => Standard
  }

  /** Three presses return to the starting mode. */
  lemma ViewModeCycle(mode: ViewMode)
    ensures NextViewMode(NextViewMode(NextViewMode(mode))) == mode
  {
  }

  /** The reply indicator's text: the first 40 characters, then `...` when there were more. */
  function ReplyPreview(text: string): (r: string)
    ensures |text| <= 40 ==> r == text
    ensures |text| > 40 ==> |r| == 43 && r[..40] == text[..40] && r[40..] == "..."
  {
    (if |text| <= 40 then text else text[..40]) + (if |text| > 40 then "..." else "")
  }

  /** `e.key === 'Enter' && !e.shiftKey`. */
  predicate SendsOnKey(key: string, shiftKey: bool) {
    key == "Enter" && !shiftKey
  }

  // ---------------------------------------------------------------- the component state

  class Window {
    var messages: seq<Message>
    var draft: string              // `message`, the composer text
    var replyingTo: Option<Message>
    var viewMode: ViewMode
    var isTyping: bool
    var showReactions: Option<int> // the id whose reaction picker is open, or `false`

    constructor ()
      ensures messages == InitialMessages() && draft == "" && replyingTo == None
      ensures viewMode == Standard && !isTyping && showReactions == None
    {
      messages := InitialMessages();
      draft := "";
      replyingTo := None;
      viewMode := Standard;
      isTyping := false;
      showReactions := None;
    }

    /** `handleSendMessage`. A blank composer changes nothing; otherwise one `sending` message is
        appended, the composer and reply target are cleared, and the timers are returned. */
    method SendMessage(now: string) returns (pending: Option<PendingSend>)
      modifies this
      ensures IsBlank(old(draft)) ==> pending == None && unchanged(this)
      ensures !IsBlank(old(draft)) ==>
        && pending == Some(PendingSend(|old(messages)| + 1, |old(messages)|))
        && messages == old(messages) + [OutgoingMessage(|old(messages)|, old(draft), now, old(replyingTo))]
        && draft == "" && replyingTo == None
        && viewMode == old(viewMode) && isTyping == old(isTyping) && showReactions == old(showReactions)
    {
      if Trim(draft) == "" {
        return None;
      }
      var n := |messages|;
      messages := messages + [OutgoingMessage(n, draft, now, replyingTo)];
      draft := "";
      replyingTo := None;
      pending := Some(PendingSend(n + 1, n));
    }

    /** `handleKeyPress`: Enter without Shift sends; every other key does nothing. */
    method KeyPress(key: string, shiftKey: bool, now: string) returns (pending: Option<PendingSend>)
      modifies this
      ensures !SendsOnKey(key, shiftKey) || IsBlank(old(draft)) ==> pending == None && unchanged(this)
      ensures SendsOnKey(key, shiftKey) && !IsBlank(old(draft)) ==>
        && pending == Some(PendingSend(|old(messages)| + 1, |old(messages)|))
        && messages == old(messages) + [OutgoingMessage(|old(messages)|, old(draft), now, old(replyingTo))]
        && draft == "" && replyingTo == None
        && viewMode == old(viewMode) && isTyping == old(isTyping) && showReactions == old(showReactions)
    {
      pending := None;
      if SendsOnKey(key, shiftKey) {
        pending := SendMessage(now);
      }
    }

    /** The first timer (800 ms): the sent message becomes `delivered`. */
    method Deliver(p: PendingSend)
      modifies this
      ensures messages == MarkDelivered(old(messages), p.messageId)
      ensures draft == old(draft) && replyingTo == old(replyingTo) && viewMode == old(viewMode)
      ensures isTyping == old(isTyping) && showReactions == old(showReactions)
    {
      messages := MarkDelivered(messages, p.messageId);
    }

    /** The second timer (1000 ms later): the typing indicator appears. */
    method StartTyping()
      modifies this
      ensures isTyping
      ensures messages == old(messages) && draft == old(draft) && replyingTo == old(replyingTo)
      ensures viewMode == old(viewMode) && showReactions == old(showReactions)
    {
      isTyping := true;
    }

    /** The third timer (2000 ms later): one received, read message is appended and the typing
        indicator goes away. Without an active conversation the callback fails on `activeChat.name`
        before it changes anything. */
    method ReceiveReply(p: PendingSend, activeChatName: Option<string>, now: string)
      modifies this
      ensures activeChatName == None ==> unchanged(this)
      ensures activeChatName.Some? ==>
        && messages == old(messages) + [ReplyMessage(p.capturedLength, activeChatName.value, now)]
        && !isTyping
        && draft == old(draft) && replyingTo == old(replyingTo) && viewMode == old(viewMode)
        && showReactions == old(showReactions)
    {
      if activeChatName.Some? {
        messages := messages + [ReplyMessage(p.capturedLength, activeChatName.value, now)];
        isTyping := false;
      }
    }

    /** `addReaction`: the emoji joins the reactions of every message with that id; the picker closes. */
    method AddReaction(messageId: int, emoji: string)
      modifies this
      ensures messages == WithReaction(old(messages), messageId, emoji)
      ensures showReactions == None
      ensures draft == old(draft) && replyingTo == old(replyingTo) && viewMode == old(viewMode)
      ensures isTyping == old(isTyping)
    {
      messages := WithReaction(messages, messageId, emoji);
      showReactions := None;
    }

    /** The reaction button of a message opens its picker. */
    method OpenReactions(messageId: int)
      modifies this`showReactions
      ensures showReactions == Some(messageId)
    {
      showReactions := Some(messageId);
    }

    /** `handleReply`. */
    method Reply(target: Message)
      modifies this`replyingTo
      ensures replyingTo == Some(target)
    {
      replyingTo := Some(target);
    }

    /** `cancelReply`. */
    method CancelReply()
      modifies this`replyingTo
      ensures replyingTo == None
    {
      replyingTo := None;
    }

    /** `handleTextareaChange`: the composer holds what was typed. */
    method EditDraft(value: string)
      modifies this`draft
      ensures draft == value
    {
      draft := value;
    }

    /** The view-mode button. */
    method CycleViewMode()
      modifies this`viewMode
      ensures viewMode == NextViewMode(old(viewMode))
    {
      viewMode := NextViewMode(viewMode);
    }
  }
}

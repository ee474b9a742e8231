# Chat app front end: a verified model of its logic

This project models, in Dafny, the behaviour of the React chat application's components that
hold logic. Markup, styling and animation are not modelled.

- **Conversation list** (`src/pages/chat/ChatList.jsx`). The sidebar derives the list it shows
  in three steps:
  - a search or filter step (`all`, `unread`, `favorites`, `groups`);
  - a sort by recent activity, unread count or name;
  - the favourites toggle.

  The sort is modelled as a stable insertion sort over the comparator. It is proved to produce a
  sorted permutation and to keep the input order among chats that compare equal.
- **Chat window** (`src/pages/chat/ChatWindow.jsx`). The component state is the class
  `ChatWindow.Window`, covering sending, the delivery and reply timers, reactions, replying and
  the view-mode cycle.
  - The three chained `setTimeout` callbacks of a send are explicit step methods that the caller
    runs in order.
  - Message ids are the thread length plus one. When the reply lands before the next send, the
    ids stay 1..n. If a second send comes first, the reply repeats an id; the lemma
    `InterleavedSendsRepeatAnId` shows this.
- **Chat page** (`src/pages/chat/index.jsx`). The class `ChatPage.Page` covers:
  - selecting the first chat on mount;
  - choosing a chat;
  - posting a message and receiving the bot's answer;
  - creating a new chat;
  - the name search.
- **Mock data** (`src/pages/chat/mockData.js`). These are the seven conversations and the three
  message fixtures, with the shape facts the pages rely on.
  - The fixtures carry none of the `unreadCount`, `isGroup` or `lastActivity` properties that the
    list pipeline reads. As a result, the `unread` and `groups` filters drop every fixture and
    the `recent` and `unread` orders tie on all of them. Lemmas state both facts.
- **Store slice** (`src/store/chatSlice.js`). This is the `chat` slice as a pure reducer over a
  state value, plus a `Store` class whose methods are the reducers applied in place.
- **Code verification** (`src/pages/auth/VerifyOTP.jsx`). The six code inputs form one array of
  slots in the class `VerifyOtp.OtpForm`.
  - The model covers typing, backspace, pasting, verifying against `123456` and resending.
  - The 30-second countdown is modelled as a tick step, with a lemma for any number of ticks.
- **Sign-up** (`src/pages/auth/SignUp.jsx`). This covers the 0–5 password-strength score, the
  three display bands, the validation schema with its exact messages, and the two-step wizard.

Shared pieces:

- `Text` defines the string primitives the components use: JavaScript `trim`, ASCII
  `toLowerCase`, `includes`, the `/^\d+$/` test and decimal printing.
- `Seqs` defines an order-keeping filter with its lemmas.
- `Wrappers` defines `Option`, which models a property that may be absent (`null`/`undefined`).

## Model

| member | source | states |
|---|---|---|
| Text.Trim | src/pages/chat/ChatWindow.jsx:70 | The result is the text with a blank prefix and a blank suffix removed, and it neither starts nor ends with whitespace. It is empty exactly when the text is all whitespace. |
| Text.ContainsEmpty | src/pages/chat/index.jsx:55 | Every string includes the empty string, so an empty query matches every name. |
| Text.ContainsAt | src/pages/chat/ChatList.jsx:20 | A string includes any term that occurs in it at some position. |
| Text.ContainsOccurs | src/pages/chat/ChatList.jsx:20 | Conversely, a string that includes a term has it at some position, so `Contains` is exactly `includes`. |
| Text.NatToString | src/pages/chat/index.jsx:101 | A number prints as a non-empty run of decimal digits with no leading zero: the first digit is `0` exactly for 0, which prints as `0`. |
| Text.NatToStringRoundTrip | src/pages/chat/index.jsx:101 | Reading the printed digits back gives the number: printing is injective. |
| MockData.MockChats | src/pages/chat/mockData.js:3-82 | The seven conversation records with their names, types, last messages, timestamps, unread counts and members. Their shape is stated by `MockChatsShape`. |
| MockData.DefaultMessages | src/pages/chat/mockData.js:86-115 | The four-message default thread, listed message by message by `DefaultMessage`. Its shape is stated by `DefaultShape`. |
| MockData.TeamProjectMessages | src/pages/chat/mockData.js:119-169 | The seven-message thread of conversation 1, listed message by message by `TeamProjectMessage`. Its shape is stated by `TeamProjectShape`. |
| MockData.DesignTeamMessages | src/pages/chat/mockData.js:171-214 | The six-message thread of conversation 3, listed message by message by `DesignTeamMessage`. Its shape is stated by `DesignTeamShape`. |
| MockData.GenerateInitialMessages | src/pages/chat/mockData.js:84-218 | Every conversation id gets a non-empty thread. |
| MockData.GenerateInitialMessagesCases | src/pages/chat/mockData.js:118-217 | Ids 1 and 3 get their own threads. Every other id, including 2, gets the default thread. |
| MockData.TeamProjectShape | src/pages/chat/mockData.js:119-169 | The thread of conversation 1 has seven messages numbered 1..7, and `me` sends exactly the `sent` ones. Every message carries a `type`. |
| MockData.DesignTeamShape | src/pages/chat/mockData.js:171-214 | The thread of conversation 3 has six messages numbered 1..6, and `me` sends exactly the `sent` ones. Every message carries a `type`. |
| MockData.DefaultShape | src/pages/chat/mockData.js:86-115 | The default thread has four messages numbered 1..4, and `me` sends exactly the `sent` ones. Every message carries a `type`. |
| MockData.GeneratedThreadShape | src/pages/chat/mockData.js:86-217 | Every returned thread has 7, 6 or 4 messages, numbered 1..n. The sender is `me` exactly on `sent` messages, and every message carries a `type`. |
| MockData.MockChatsShape | src/pages/chat/mockData.js:3-82 | There are seven conversations with ids 1..7, all distinct. Exactly the group conversations have a member list. |
| MockData.MockChatsLackPipelineFields | src/pages/chat/mockData.js:3-82 | No conversation carries `unreadCount`, `isGroup` or `lastActivity`. |
| ChatList.MatchesSearch | src/pages/chat/ChatList.jsx:20-21 | The search test: the lower-cased name, or a present, non-empty last message, includes the lower-cased term. Used by `FilterChats` and `SearchOverridesFilter`. |
| ChatList.Keep | src/pages/chat/ChatList.jsx:18-27 | The filter callback: a non-empty term decides alone; otherwise the option decides, and a missing `unreadCount` or `isGroup` never matches. Used by `FilterChats` and `MissingFieldsNeverMatch`. |
| ChatList.FilterChats | src/pages/chat/ChatList.jsx:17-27 | A chat is kept exactly when the filter callback accepts it, as often as it occurs in the input. The kept chats are an order-preserving sub-list of the input. |
| ChatList.SearchOverridesFilter | src/pages/chat/ChatList.jsx:19-22 | With a non-empty search term, the filter option makes no difference. |
| ChatList.AllKeepsEverything | src/pages/chat/ChatList.jsx:26 | With no search term and the `all` option, the list passes through unchanged. |
| ChatList.MissingFieldsNeverMatch | src/pages/chat/ChatList.jsx:23-25 | A chat without `unreadCount` fails the `unread` filter. A chat without `isGroup` fails the `groups` filter. |
| ChatList.UnreadAndGroupsDropEveryFixture | src/pages/chat/ChatList.jsx:23-25 | On the mock conversations, the `unread` and `groups` filters with no search term keep nothing. |
| ChatList.StrCompare | src/pages/chat/ChatList.jsx:34 | The name comparison answers -1, 0 or 1. |
| ChatList.StrCompareAntisymmetric | src/pages/chat/ChatList.jsx:34 | Swapping the names negates the comparison. Only equal names compare equal. |
| ChatList.StrCompareTransitive | src/pages/chat/ChatList.jsx:34 | The name order is transitive. |
| ChatList.Compare | src/pages/chat/ChatList.jsx:28-37 | The comparator: later activity first, more unread first, or name order, with a missing key counting as 0; any other order ties everything. Its laws are the three lemmas below. |
| ChatList.CompareAntisymmetric | src/pages/chat/ChatList.jsx:28-37 | For every sort order, swapping the arguments negates the comparator. |
| ChatList.CompareTransitive | src/pages/chat/ChatList.jsx:28-37 | For every sort order, "not after" is transitive. |
| ChatList.CompareEquivalence | src/pages/chat/ChatList.jsx:28-37 | Tying with the comparator is transitive. |
| ChatList.Insert | src/pages/chat/ChatList.jsx:28-37 | Inserting adds exactly the one chat: the multiset grows by it. |
| ChatList.InsertSorted | src/pages/chat/ChatList.jsx:28-37 | Inserting into a sorted list keeps it sorted. |
| ChatList.SortChats | src/pages/chat/ChatList.jsx:28-37 | The sort returns a permutation of its input that is in comparator order. |
| ChatList.InsertStable | src/pages/chat/ChatList.jsx:28-37 | Inserting a chat in front of a list puts it first among the chats of that list it ties with; their order is kept. |
| ChatList.SortStable | src/pages/chat/ChatList.jsx:28-37 | The sort is stable: chats that tie keep their input order. |
| ChatList.SortKeepsSortedInput | src/pages/chat/ChatList.jsx:28-37 | Input that is already in order comes out unchanged. |
| ChatList.UnorderedKeepsOrder | src/pages/chat/ChatList.jsx:36 | An unknown sort order leaves the list as filtered. |
| ChatList.MissingKeysKeepOrder | src/pages/chat/ChatList.jsx:29-32 | Chats lacking `lastActivity` keep their order under `recent`. Chats lacking `unreadCount` keep their order under `unread`. |
| ChatList.FilteredChats | src/pages/chat/ChatList.jsx:17-37 | An absent list gives no chats. Otherwise the result holds each kept chat exactly as often as the input does, and no other chat, in comparator order. |
| ChatList.ToggleFavorite | src/pages/chat/ChatList.jsx:39-44 | The toggled id's membership flips. Every other id keeps its number of occurrences. An absent id is appended at the end; removing a present id keeps the order of the rest. |
| ChatList.ToggleKeepsDistinct | src/pages/chat/ChatList.jsx:39-44 | Toggling never duplicates an id in a duplicate-free list. |
| ChatList.ToggleTwiceRestoresAbsent | src/pages/chat/ChatList.jsx:39-44 | Toggling an absent id twice restores the exact list. |
| ChatList.ToggleTwiceRestoresMembership | src/pages/chat/ChatList.jsx:39-44 | Toggling any id twice restores the set of favourites. |
| ChatWindow.InitialMessages | src/pages/chat/ChatWindow.jsx:14-51 | The four starting messages, numbered 1 to 4. |
| ChatWindow.OutgoingMessage | src/pages/chat/ChatWindow.jsx:72-82 | The message a send builds: id length + 1, sender `me`, `sent`, `sending`, no reactions, the reply target. Used by `SendMessage` and the id lemmas. |
| ChatWindow.ReplyMessage | src/pages/chat/ChatWindow.jsx:99-108 | The simulated answer: id captured length + 2, the fixed text naming the chat, `received`, `read`. Used by `ReceiveReply` and the id lemmas. |
| ChatWindow.MarkDelivered | src/pages/chat/ChatWindow.jsx:88-93 | Messages with the id become `delivered` and nothing else in them changes. Other messages are untouched. |
| ChatWindow.MarkDeliveredIdempotent | src/pages/chat/ChatWindow.jsx:88-93 | Marking twice is marking once. |
| ChatWindow.Dedup | src/pages/chat/ChatWindow.jsx:125 | `[...new Set(s)]` has no duplicates and the same elements as `s`, ordered by where each first occurs in `s`. |
| ChatWindow.DedupOfDistinct | src/pages/chat/ChatWindow.jsx:125 | A duplicate-free list is unchanged by the set round trip. |
| ChatWindow.AddReactionTo | src/pages/chat/ChatWindow.jsx:125 | The new reactions are duplicate-free and are the old ones plus the emoji. |
| ChatWindow.AddReactionKeepsOrder | src/pages/chat/ChatWindow.jsx:125 | On a duplicate-free list, a new emoji is appended at the end and a present one changes nothing. |
| ChatWindow.AddReactionIdempotent | src/pages/chat/ChatWindow.jsx:125 | Adding the same reaction twice is adding it once. |
| ChatWindow.WithReaction | src/pages/chat/ChatWindow.jsx:121-128 | Only messages with the id gain the reaction. The thread keeps its length and other messages. |
| ChatWindow.WithReactionIdempotent | src/pages/chat/ChatWindow.jsx:121-128 | Reacting twice with one emoji is reacting once. |
| ChatWindow.SendThenReplyKeepsIds | src/pages/chat/ChatWindow.jsx:68-112 | A send followed by its reply keeps ids 1..n. |
| ChatWindow.InterleavedSendsRepeatAnId | src/pages/chat/ChatWindow.jsx:68-112 | When two sends precede the first reply, that reply carries the same id as the second sent message. |
| ChatWindow.NextViewMode | src/pages/chat/ChatWindow.jsx:187 | The view-mode button always changes the mode. |
| ChatWindow.ViewModeCycle | src/pages/chat/ChatWindow.jsx:187 | Three presses return to the starting mode. |
| ChatWindow.ReplyPreview | src/pages/chat/ChatWindow.jsx:318 | Text of at most 40 characters is shown whole. Longer text shows its first 40 characters followed by `...`. |
| ChatWindow.Window.constructor | src/pages/chat/ChatWindow.jsx:8-51 | The window starts with the four initial messages, an empty composer, no reply target, standard view and no typing indicator. |
| ChatWindow.Window.SendMessage | src/pages/chat/ChatWindow.jsx:68-85 | A blank composer changes nothing. Otherwise one `sending` message, numbered length + 1, is appended with the draft and reply target, and both are cleared. |
| ChatWindow.Window.KeyPress | src/pages/chat/ChatWindow.jsx:115-119 | Enter without Shift on a non-blank composer sends exactly as `SendMessage` does, leaving view mode, typing and the picker as they were. Any other key, or a blank composer, changes nothing. |
| ChatWindow.Window.Deliver | src/pages/chat/ChatWindow.jsx:88-93 | The first timer marks the sent message delivered and changes nothing else. |
| ChatWindow.Window.StartTyping | src/pages/chat/ChatWindow.jsx:96-97 | The second timer shows the typing indicator. |
| ChatWindow.Window.ReceiveReply | src/pages/chat/ChatWindow.jsx:98-109 | With an active chat, one read reply numbered from the captured length is appended and typing stops. Without one, nothing changes. |
| ChatWindow.Window.AddReaction | src/pages/chat/ChatWindow.jsx:121-130 | The reaction is added to the message and the picker closes. |
| ChatWindow.Window.OpenReactions | src/pages/chat/ChatWindow.jsx:250 | The picker opens for that message. |
| ChatWindow.Window.Reply | src/pages/chat/ChatWindow.jsx:132-135 | The message becomes the reply target. |
| ChatWindow.Window.CancelReply | src/pages/chat/ChatWindow.jsx:137-139 | The reply target is cleared. |
| ChatWindow.Window.EditDraft | src/pages/chat/ChatWindow.jsx:142-146 | The composer holds the typed value. |
| ChatWindow.Window.CycleViewMode | src/pages/chat/ChatWindow.jsx:187 | The view moves to the next mode. |
| ChatPage.HasSelection | src/pages/chat/index.jsx:31 | The truthiness of `selectedChat`: absent and id 0 are both falsy. Used by `LoadInitialData`. |
| ChatPage.SearchByName | src/pages/chat/index.jsx:54-56 | A chat is listed exactly when its lower-cased name includes the lower-cased query, as often as it occurs. List order is kept. |
| ChatPage.EmptyQueryKeepsAll | src/pages/chat/index.jsx:54-56 | An empty query lists every chat, in order. |
| ChatPage.Page.constructor | src/pages/chat/index.jsx:15-23 | The page starts light, with the sidebar open, nothing selected, the mock chats and an empty thread. |
| ChatPage.Page.LoadInitialData | src/pages/chat/index.jsx:30-35 | With chats present and no truthy selection, the first chat is selected and its thread is loaded. Otherwise nothing changes. |
| ChatPage.Page.ToggleSidebar | src/pages/chat/index.jsx:43-45 | The sidebar flips. |
| ChatPage.Page.ToggleDarkMode | src/pages/chat/index.jsx:48-51 | Dark mode flips. |
| ChatPage.Page.HandleChatSelect | src/pages/chat/index.jsx:59-65 | The chat is selected and its thread loaded. The sidebar closes exactly on a narrow viewport. |
| ChatPage.Page.HandleSendMessage | src/pages/chat/index.jsx:68-84 | A blank composer changes nothing. Otherwise the user's message is appended, the composer is cleared and typing shows. |
| ChatPage.Page.ReceiveBotReply | src/pages/chat/index.jsx:85-94 | `Response to: <text>` is appended from `bot` with id now + 1, and typing stops. |
| ChatPage.Page.HandleKeyPress | src/pages/chat/index.jsx:114-119 | Enter without Shift on a non-blank composer sends exactly as `HandleSendMessage` does. Any other key, or a blank composer, changes nothing. |
| ChatPage.Page.CreateNewChat | src/pages/chat/index.jsx:98-111 | A new chat numbered after the old count goes first and is selected, with an empty thread. |
| ChatPage.NewChat | src/pages/chat/index.jsx:99-105 | The record `createNewChat` builds. Its numbering is stated by `NewChatNumbering`. |
| ChatPage.BotAnswer | src/pages/chat/index.jsx:89 | The answer is `Response to: ` followed by the whole posted text. |
| ChatPage.NewChatNumbering | src/pages/chat/index.jsx:99-105 | The new chat's name is `New Chat ` followed by the decimal numeral of count + 1, which has no leading zero. It has 0 unread and its id is the clock value. |
| ChatPage.MountAndLoad | src/pages/chat/index.jsx:29-35 | Mounting the page selects chat 1 and shows its seven-message thread. |
| ChatSlice.Reduce | src/store/chatSlice.js:14-28 | Each action changes only the field its reducer writes: chats, the active chat, the messages (set or add) or the loading flag. |
| ChatSlice.SetterReplacesOnlyItsField | src/store/chatSlice.js:14-28 | Each setter writes its payload to its own field and to no other field. |
| ChatSlice.SetterIdempotent | src/store/chatSlice.js:14-28 | Dispatching a setter twice is dispatching it once. |
| ChatSlice.AddMessageAppends | src/store/chatSlice.js:23-25 | `addMessage` appends exactly one message and changes nothing else. |
| ChatSlice.AddMessageTwiceAppendsTwice | src/store/chatSlice.js:23-25 | `addMessage` is not idempotent: two dispatches append two copies. |
| ChatSlice.Store.constructor | src/store/chatSlice.js:3-8 | The store starts with no chats, no active chat, no messages and not loading. |
| ChatSlice.Store.DoSetChats | src/store/chatSlice.js:14-16 | The new state is the reducer applied to the old state. |
| ChatSlice.Store.DoSetActiveChat | src/store/chatSlice.js:17-19 | The new state is the reducer applied to the old state. |
| ChatSlice.Store.DoSetMessages | src/store/chatSlice.js:20-22 | The new state is the reducer applied to the old state. |
| ChatSlice.Store.DoAddMessage | src/store/chatSlice.js:23-25 | The messages gain the payload at the end, as the reducer says. |
| ChatSlice.Store.DoSetLoading | src/store/chatSlice.js:26-28 | The new state is the reducer applied to the old state. |
| VerifyOtp.Join | src/pages/auth/VerifyOTP.jsx:81 | `otp.join('')`. Its length and value are stated by `JoinLength` and `JoinValidCode`. |
| VerifyOtp.JoinLength | src/pages/auth/VerifyOTP.jsx:81-82 | For single-character inputs, the joined code has six characters exactly when every input is filled. |
| VerifyOtp.JoinValidCode | src/pages/auth/VerifyOTP.jsx:81-89 | Filled inputs join to `123456` exactly when they read 1 to 6 in order. |
| VerifyOtp.FirstEmpty | src/pages/auth/VerifyOTP.jsx:72 | The result is the index of the first empty input, or -1 exactly when none is empty. |
| VerifyOtp.Overlay | src/pages/auth/VerifyOTP.jsx:62-67 | Defined as the slot list in which input i holds digit i of the pasted text for i below its length, and keeps its value otherwise. The contract states only that the number of slots is kept. `Fill` is proved against this definition. |
| VerifyOtp.Outcome | src/pages/auth/VerifyOTP.jsx:87-95 | Verification succeeds exactly for `123456` and never leaves the status unset. |
| VerifyOtp.Tick | src/pages/auth/VerifyOTP.jsx:20-30 | A running timer drops by exactly one and never below 0. Permission to resend is never withdrawn, and it is granted when the timer reaches 0. |
| VerifyOtp.CountdownAfter | src/pages/auth/VerifyOTP.jsx:20-30 | After n ticks from t seconds, max(t - n, 0) seconds remain. A resend is allowed exactly when n >= t. |
| VerifyOtp.ResendAfterThirtyTicks | src/pages/auth/VerifyOTP.jsx:10-30 | From the initial state, a resend becomes possible after exactly 30 ticks. |
| VerifyOtp.OtpForm.constructor | src/pages/auth/VerifyOTP.jsx:7-11 | The form starts with six empty inputs, no status, 30 seconds and no resend. |
| VerifyOtp.OtpForm.HandleChange | src/pages/auth/VerifyOTP.jsx:32-46 | For a value of at most one character (the inputs' `maxLength`), and only before a successful verification (the inputs are then disabled): while verifying, or for a non-digit, nothing changes. Otherwise the input takes the value, and focus advances after a non-empty value except on the last input. |
| VerifyOtp.OtpForm.HandleKeyDown | src/pages/auth/VerifyOTP.jsx:48-53 | Backspace on an empty input other than the first moves focus back one input. |
| VerifyOtp.OtpForm.HandlePaste | src/pages/auth/VerifyOTP.jsx:55-78 | The trimmed text, if all digits, overwrites the first min(6, length) inputs and leaves the rest. Focus goes to the first empty input, or else the last one. While verifying, or for other text, nothing changes. No paste arrives after a successful verification, because the input is then disabled. |
| VerifyOtp.OtpForm.Fill | src/pages/auth/VerifyOTP.jsx:62-77 | Digits overwrite the first min(6, length) inputs one each, the rest are kept, and focus goes to the first empty input or the last one. |
| VerifyOtp.OtpForm.Verify | src/pages/auth/VerifyOTP.jsx:80-85 | Called only when no check is running and none has succeeded, as the button is disabled otherwise (VerifyOTP.jsx:234). Verification starts exactly when the joined code has six characters, which is exactly when all six inputs are filled. That code is handed to the delayed check. |
| VerifyOtp.OtpForm.CompleteVerification | src/pages/auth/VerifyOTP.jsx:87-95 | The status becomes success exactly for `123456`, and verifying ends. |
| VerifyOtp.OtpForm.HandleResend | src/pages/auth/VerifyOTP.jsx:98-110 | Without permission to resend, nothing changes. Otherwise the inputs empty, the countdown restarts at 30, the status clears and focus returns to the first input. |
| VerifyOtp.OtpForm.TickSecond | src/pages/auth/VerifyOTP.jsx:20-30 | One second of the countdown, as the tick step states. |
| VerifyOtp.PasteValidCode | src/pages/auth/VerifyOTP.jsx:55-95 | Pasting `123456` into a fresh form and verifying it succeeds. |
| SignUp.Score | src/pages/auth/SignUp.jsx:40-52 | The sum of the five tests: never above 5, and 0 for an empty password. |
| SignUp.CalculatePasswordStrength | src/pages/auth/SignUp.jsx:38-52 | The score is the sum of the five tests, lies in 0..5, and is 0 for an empty password. |
| SignUp.ScoreMonotoneAppend | src/pages/auth/SignUp.jsx:43-49 | Appending characters never lowers the score. |
| SignUp.Band | src/pages/auth/SignUp.jsx:54-58 | Scores of at most 1 are weak, scores above 3 are strong, and the rest are medium. |
| SignUp.ProgressColor | src/pages/auth/SignUp.jsx:54-58 | `getProgressColor`. Its agreement with the label is stated by `DisplaysAgree`. |
| SignUp.StrengthLabel | src/pages/auth/SignUp.jsx:264 | The strength label. Its agreement with the colours is stated by `DisplaysAgree`. |
| SignUp.LabelColor | src/pages/auth/SignUp.jsx:263 | The label's colour. Its agreement with the label is stated by `DisplaysAgree`. |
| SignUp.DisplaysAgree | src/pages/auth/SignUp.jsx:54-58 | The bar colour, the label and the label colour at lines 263-264 change together, exactly at the band boundaries. |
| SignUp.NameIssues | src/pages/auth/SignUp.jsx:11 | A name has an issue exactly when it is shorter than 2 characters. |
| SignUp.EmailIssues | src/pages/auth/SignUp.jsx:12 | The email has an issue exactly when the format check fails. |
| SignUp.PasswordIssues | src/pages/auth/SignUp.jsx:13-17 | A password has no issue exactly when it has at least 6 characters, an uppercase letter and a digit. All its issues are on the password field. |
| SignUp.MismatchIssues | src/pages/auth/SignUp.jsx:19-22 | There is a mismatch issue exactly when the two passwords differ. |
| SignUp.SchemaIssues | src/pages/auth/SignUp.jsx:10-23 | The schema reports no issue exactly when every rule holds: name of 2 or more, a well-formed email, a password of 6 or more with an uppercase letter and a digit, and a matching confirmation. |
| SignUp.MismatchOnConfirm | src/pages/auth/SignUp.jsx:19-22 | `Passwords don't match` is reported on the confirmation field exactly when the passwords differ. No other issue goes on that field. |
| SignUp.AcceptedPasswordNotWeak | src/pages/auth/SignUp.jsx:13-17 | Any password the schema accepts scores at least 3 and is never labelled Weak. |
| SignUp.Wizard.constructor | src/pages/auth/SignUp.jsx:27 | The wizard starts at step 1. |
| SignUp.Wizard.Continue | src/pages/auth/SignUp.jsx:225-226 | Step 2 is reached exactly when name and email are both edited and free of issues. Otherwise the step stays. |
| SignUp.Wizard.Back | src/pages/auth/SignUp.jsx:324 | Back returns to step 1. |

## Left out

- Rendering, layout, styling and animation (framer-motion, Tailwind classes) are left out: they are presentation only.
- Toast notifications are left out: they are output only.
- Navigation, DOM scrolling and the `document` class toggle for dark mode are left out: they are effects outside the component state.
- Real timers are left out. Each `setTimeout` or `setInterval` callback is a step method or function that the caller runs. Delays, cancellation and interleaving with rendering are therefore not modelled.
- DOM focus is an input index in `OtpForm`. The 100 ms focus timeout after a resend is folded into `HandleResend`.
- Clock readings (`Date.now()`, `toISOString`, `toLocaleTimeString`) and the viewport width are parameters.
- `ChatList.StrCompare`: `localeCompare` is modelled as code-point order, because locale collation tables are outside the model.
- `Text.Lower` lowers ASCII letters only. Full Unicode case mapping is outside the model.
- String lengths count characters, not UTF-16 code units. The 40-character reply preview and the length rules of the schema differ from the source only for text outside the Basic Multilingual Plane.
- `ChatList.Compare`: `lastActivity` is an integer timestamp. Invalid dates, for which the source computes NaN, are not modelled.
- `SignUp.EmailIssues`: the email format rule of `z.string().email()` is a boolean input, because its regular expression is outside the model. The schema's other rules are modelled exactly.
- `SignUp.SchemaIssues` assumes every field is present as a string. The object-level refinement then always runs alongside the field checks, as zod does for failures that are not type errors.
- The submit handler of the sign-up form (a mock delay, a toast and navigation) and the submit button's disabled state are left out: there is no logic beyond the schema.
- The floating-point progress width `(strength / 5) * 100` is left out. Only the integer score and its bands are modelled.
- `src/pages/auth/SignIn.jsx`, `ForgotPassword.jsx` and `ResetPassword.jsx` are not part of this model. They are mock submits around schemas with a single length rule.
- `src/pages/chat/EmptyState.jsx`, `ChatBubble.jsx`, `ChatItem.jsx` and `src/App.jsx` are not part of this model. They are presentational or routing only.
- The props passed between `index.jsx` and `ChatList`/`ChatWindow` are not modelled: each component's own logic is modelled separately.
- The presentation-only fields of the mock conversations (avatars, online status) are left out.
- `ChatWindow.Window`: message-id uniqueness is not claimed. Ids are lengths, and `InterleavedSendsRepeatAnId` shows a collision.
- `ChatList.SortStable` states stability one tie class at a time. This is the same as stability for a comparator whose ties form an equivalence, which `CompareEquivalence` proves.
- `VerifyOtp.OtpForm.HandlePaste`: the source attaches the paste handler to the first input only. The model does not track which input receives the paste, because the handler's effect does not depend on it.

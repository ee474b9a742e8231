/** The conversation-list derivation of the sidebar (src/pages/chat/ChatList.jsx): a search or filter
    step, then a stable sort, and the favourites toggle. */
module ChatList {
  import opened Wrappers
  import opened Text
  import opened Seqs
  import opened MockData

  /** `filterOption`; `All` stands for 'all' and for any other string, which keeps every chat. */
  datatype FilterOption = All | Unread | Favorites | Groups

  /** `sortOrder`; `Unordered` stands for any string other than the three orders, whose comparator
      always answers 0. */
  datatype SortOrder = Recent | UnreadCount | Alphabetical | Unordered

  // ---------------------------------------------------------------- filtering

  /** The search test: the lower-cased name, or the last message when present and non-empty,
      includes the lower-cased term. */
  predicate MatchesSearch(chat: Chat, searchTerm: string) {
    var term := Lower(searchTerm);
    Contains(Lower(chat.name), term)
    || (chat.lastMessage.Some? && chat.lastMessage.value != "" && Contains(Lower(chat.lastMessage.value), term))
  }

  /** The filter callback. A non-empty search term decides alone; otherwise the filter option does,
      and a missing `unreadCount` or `isGroup` never matches. */
  predicate Keep(chat: Chat, searchTerm: string, option: FilterOption, favorites: seq<int>) {
    if searchTerm != "" then MatchesSearch(chat, searchTerm)
    else match option
      case Unread => chat.unreadCount.Some? && chat.unreadCount.value > 0
      case Favorites => chat.id in favorites
      case Groups => chat.isGroup == Some(true)
      case All => true
  }

  function KeepFor(searchTerm: string, option: FilterOption, favorites: seq<int>): Chat -> bool {
    chat => Keep(chat, searchTerm, option, favorites)
  }

  /** The `.filter(...)` step of the pipeline. */
  function FilterChats(chats: seq<Chat>, searchTerm: string, option: FilterOption, favorites: seq<int>): (r: seq<Chat>)
    ensures forall c :: c in r <==> c in chats && Keep(c, searchTerm, option, favorites)
    ensures IsSubsequence(r, chats)
    ensures multiset(r) <= multiset(chats)
    ensures forall c :: multiset(r)[c] == if Keep(c, searchTerm, option, favorites) then multiset(chats)[c] else 0
  {
    FilterIsSubsequence(chats, KeepFor(searchTerm, option, favorites));
    FilterCount(chats, KeepFor(searchTerm, option, favorites));
    Filter(chats, KeepFor(searchTerm, option, favorites))
  }

  /** With a non-empty search term the filter option plays no part. */
  lemma SearchOverridesFilter(chats: seq<Chat>, searchTerm: string, o1: FilterOption, o2: FilterOption, favorites: seq<int>)
    requires searchTerm != ""
    ensures FilterChats(chats, searchTerm, o1, favorites) == FilterChats(chats, searchTerm, o2, favorites)
  {
    FilterCongruent(chats, KeepFor(searchTerm, o1, favorites), KeepFor(searchTerm, o2, favorites));
  }

  /** With an empty search term and the `all` option every chat is kept, in order. */
  lemma AllKeepsEverything(chats: seq<Chat>, favorites: seq<int>)
    ensures FilterChats(chats, "", All, favorites) == chats
  {
    FilterKeepsAll(chats, KeepFor("", All, favorites));
  }

  /** A chat without `unreadCount` never passes the `unread` filter, and one without `isGroup`
      never passes the `groups` filter. */
  lemma MissingFieldsNeverMatch(chats: seq<Chat>, favorites: seq<int>)
    ensures (forall c :: c in chats ==> c.unreadCount == None) ==> FilterChats(chats, "", Unread, favorites) == []
    ensures (forall c :: c in chats ==> c.isGroup == None) ==> FilterChats(chats, "", Groups, favorites) == []
  {
    var u := FilterChats(chats, "", Unread, favorites);
    if u != [] {
      assert u[0] in u;
    }
    var g := FilterChats(chats, "", Groups, favorites);
    if g != [] {
      assert g[0] in g;
    }
  }

  /** The fixtures carry `unread` and `type`, not `unreadCount` and `isGroup`, so the `unread` and
      `groups` filters drop every fixture conversation. */
  lemma UnreadAndGroupsDropEveryFixture(favorites: seq<int>)
    ensures FilterChats(MockChats(), "", Unread, favorites) == []
    ensures FilterChats(MockChats(), "", Groups, favorites) == []
  {
    MockChatsLackPipelineFields();
    MissingFieldsNeverMatch(MockChats(), favorites);
  }

  // ---------------------------------------------------------------- sorting

  /** `new Date(chat.lastActivity || 0)`, with times as integers: a missing value counts as 0. */
  function Activity(chat: Chat): int {
    chat.lastActivity.GetOr(0)
  }

  /** `chat.unreadCount || 0`. */
  function UnreadOf(chat: Chat): int {
    chat.unreadCount.GetOr(0)
  }

  /** Three-way comparison of strings by character code, standing in for `localeCompare`. */
  function StrCompare(a: string, b: string): (r: int)
    ensures -1 <= r <= 1
  {
    if a == [] && b == [] then 0
    else if a == [] then -1
    else if b == [] then 1
    else if a[0] < b[0] then -1
    else if a[0] > b[0] then 1
    else StrCompare(a[1..], b[1..])
  }

  /** Swapping the arguments negates the comparison, and only equal strings compare equal. */
  lemma {:induction false} StrCompareAntisymmetric(a: string, b: string)
    ensures StrCompare(a, b) == -StrCompare(b, a)
    ensures StrCompare(a, b) == 0 <==> a == b
  {
    if a != [] && b != [] && a[0] == b[0] {
      StrCompareAntisymmetric(a[1..], b[1..]);
      assert a == [a[0]] + a[1..] && b == [b[0]] + b[1..];
    }
  }

  /** "Not after" is transitive. */
  lemma {:induction false} StrCompareTransitive(a: string, b: string, c: string)
    requires StrCompare(a, b) <= 0 && StrCompare(b, c) <= 0
    ensures StrCompare(a, c) <= 0
  {
    if a != [] && b != [] && c != [] && a[0] == b[0] && b[0] == c[0] {
      StrCompareTransitive(a[1..], b[1..], c[1..]);
    }
  }

  /** The `.sort` comparator: negative keeps `a` first, positive puts `b` first. */
  function Compare(order: SortOrder, a: Chat, b: Chat): int {
    match order
    case Recent => Activity(b) - Activity(a)
    case UnreadCount => UnreadOf(b) - UnreadOf(a)
    case Alphabetical => StrCompare(a.name, b.name)
    case Unordered => 0
  }

  lemma CompareAntisymmetric(order: SortOrder, a: Chat, b: Chat)
    ensures Compare(order, a, b) == -Compare(order, b, a)
  {
    if order == Alphabetical {
      StrCompareAntisymmetric(a.name, b.name);
    }
  }

  lemma CompareTransitive(order: SortOrder, a: Chat, b: Chat, c: Chat)
    requires Compare(order, a, b) <= 0 && Compare(order, b, c) <= 0
    ensures Compare(order, a, c) <= 0
  {
    if order == Alphabetical {
      StrCompareTransitive(a.name, b.name, c.name);
    }
  }

  /** Comparing equal is an equivalence: two chats equal to a third are equal to each other. */
  lemma CompareEquivalence(order: SortOrder, a: Chat, b: Chat, k: Chat)
    requires Compare(order, a, k) == 0 && Compare(order, b, k) == 0
    ensures Compare(order, a, b) == 0
  {
    if order == Alphabetical {
      StrCompareAntisymmetric(a.name, k.name);
      StrCompareAntisymmetric(b.name, k.name);
      StrCompareAntisymmetric(a.name, b.name);
    }
  }

  /** Every pair appears in comparator order. */
  predicate Sorted(order: SortOrder, s: seq<Chat>) {
    forall i, j :: 0 <= i < j < |s| ==> Compare(order, s[i], s[j]) <= 0
  }

  /** Places `x` before the first element that does not compare below it, so that `x`, which came
      earlier in the input, stays ahead of every element it ties with. */
  function Insert(order: SortOrder, x: Chat, s: seq<Chat>): (r: seq<Chat>)
    ensures multiset(r) == multiset(s) + multiset{x}
    ensures |r| == |s| + 1
  {
    if s == [] then [x]
    else if Compare(order, x, s[0]) <= 0 then [x] + s
    else
      assert s == [s[0]] + s[1..];
      [s[0]] + Insert(order, x, s[1..])
  }

  /** `x` compares at or before every element of `s`. */
  predicate NotAfterAny(order: SortOrder, x: Chat, s: seq<Chat>) {
    forall i :: 0 <= i < |s| ==> Compare(order, x, s[i]) <= 0
  }

  lemma SortedCons(order: SortOrder, x: Chat, s: seq<Chat>)
    requires Sorted(order, s) && NotAfterAny(order, x, s)
    ensures Sorted(order, [x] + s)
  {
    var r := [x] + s;
    forall i, j | 0 <= i < j < |r|
      ensures Compare(order, r[i], r[j]) <= 0
    {
      assert r[j] == s[j - 1];
      if i > 0 {
        assert r[i] == s[i - 1];
      }
    }
  }

  /** Inserting an element that `y` does not come after keeps `y` ahead of everything. */
  lemma {:induction false} InsertKeepsBound(order: SortOrder, y: Chat, x: Chat, s: seq<Chat>)
    requires Compare(order, y, x) <= 0 && NotAfterAny(order, y, s)
    ensures NotAfterAny(order, y, Insert(order, x, s))
  {
    if s != [] && Compare(order, x, s[0]) > 0 {
      InsertKeepsBound(order, y, x, s[1..]);
      var rest := Insert(order, x, s[1..]);
      assert Insert(order, x, s) == [s[0]] + rest;
    }
  }

  lemma {:induction false} InsertSorted(order: SortOrder, x: Chat, s: seq<Chat>)
    requires Sorted(order, s)
    ensures Sorted(order, Insert(order, x, s))
  {
    if s == [] {
    } else if Compare(order, x, s[0]) <= 0 {
      forall j | 0 <= j < |s|
        ensures Compare(order, x, s[j]) <= 0
      {
        if j > 0 {
          CompareTransitive(order, x, s[0], s[j]);
        }
      }
      SortedCons(order, x, s);
    } else {
      var tail := s[1..];
      assert Sorted(order, tail);
      InsertSorted(order, x, tail);
      CompareAntisymmetric(order, x, s[0]);
      assert NotAfterAny(order, s[0], tail) by {
        forall j | 0 <= j < |tail|
          ensures Compare(order, s[0], tail[j]) <= 0
        {
          assert tail[j] == s[j + 1];
        }
      }
      InsertKeepsBound(order, s[0], x, tail);
      SortedCons(order, s[0], Insert(order, x, tail));
    }
  }

  /** `.sort(comparator)`: a stable insertion sort. */
  function SortChats(order: SortOrder, s: seq<Chat>): (r: seq<Chat>)
    ensures |r| == |s|
    ensures multiset(r) == multiset(s)
    ensures forall c :: c in r <==> c in s
    ensures Sorted(order, r)
  {
    if s == [] then []
    else
      var rest := SortChats(order, s[1..]);
      InsertSorted(order, s[0], rest);
      assert s == [s[0]] + s[1..];
      var r := Insert(order, s[0], rest);
      assert forall c :: c in r <==> c in multiset(r);
      assert forall c :: c in s <==> c in multiset(s);
      r
  }

  /** The chats the comparator ties with `k`. */
  function TiesWith(order: SortOrder, k: Chat): Chat -> bool {
    y => Compare(order, y, k) == 0
  }

  /** The step of `InsertStable` where `x` moves past the head of `s`: the head cannot tie with `k`
      when `x` does. */
  lemma InsertStablePastHead(order: SortOrder, x: Chat, s: seq<Chat>, k: Chat)
    requires s != [] && Compare(order, x, s[0]) > 0
    requires Filter(Insert(order, x, s[1..]), TiesWith(order, k))
          == (if Compare(order, x, k) == 0 then [x] else []) + Filter(s[1..], TiesWith(order, k))
    ensures Filter(Insert(order, x, s), TiesWith(order, k))
         == (if Compare(order, x, k) == 0 then [x] else []) + Filter(s, TiesWith(order, k))
  {
    var p := TiesWith(order, k);
    var tail := s[1..];
    var rest := Insert(order, x, tail);
    var ft := Filter(tail, p);
    var fr := Filter(rest, p);
    assert Insert(order, x, s) == [s[0]] + rest;
    assert Filter(s, p) == if p(s[0]) then [s[0]] + ft else ft;
    FilterCons(s[0], rest, p);
    assert Filter([s[0]] + rest, p) == if p(s[0]) then [s[0]] + fr else fr;
    if p(x) {
      assert fr == [x] + ft;
      if p(s[0]) {
        CompareEquivalence(order, x, s[0], k);
        assert false;
      }
    } else {
      assert fr == ft;
    }
  }

  lemma {:induction false} InsertStable(order: SortOrder, x: Chat, s: seq<Chat>, k: Chat)
    ensures Filter(Insert(order, x, s), TiesWith(order, k))
         == (if Compare(order, x, k) == 0 then [x] else []) + Filter(s, TiesWith(order, k))
  {
    var p := TiesWith(order, k);
    if s == [] {
      FilterCons(x, [], p);
    } else if Compare(order, x, s[0]) <= 0 {
      FilterCons(x, s, p);
    } else {
      InsertStable(order, x, s[1..], k);
      InsertStablePastHead(order, x, s, k);
    }
  }

  /** Stability: among chats that tie with any `k`, the sort keeps the input order. */
  lemma {:induction false} SortStable(order: SortOrder, s: seq<Chat>, k: Chat)
    ensures Filter(SortChats(order, s), TiesWith(order, k)) == Filter(s, TiesWith(order, k))
  {
    if s != [] {
      SortStable(order, s[1..], k);
      InsertStable(order, s[0], SortChats(order, s[1..]), k);
    }
  }

  /** An input already in comparator order comes out unchanged. */
  lemma {:induction false} SortKeepsSortedInput(order: SortOrder, s: seq<Chat>)
    requires Sorted(order, s)
    ensures SortChats(order, s) == s
  {
    if s != [] {
      assert Sorted(order, s[1..]);
      SortKeepsSortedInput(order, s[1..]);
    }
  }

  /** An unknown sort order leaves the filtered order as it is. */
  lemma UnorderedKeepsOrder(s: seq<Chat>)
    ensures SortChats(Unordered, s) == s
  {
    SortKeepsSortedInput(Unordered, s);
  }

  /** Chats without `lastActivity` all tie under `recent`, so that order keeps them as they are;
      likewise chats without `unreadCount` under `unread`. */
  lemma MissingKeysKeepOrder(s: seq<Chat>)
    ensures (forall c :: c in s ==> c.lastActivity == None) ==> SortChats(Recent, s) == s
    ensures (forall c :: c in s ==> c.unreadCount == None) ==> SortChats(UnreadCount, s) == s
  {
    if forall c :: c in s ==> c.lastActivity == None {
      assert forall i :: 0 <= i < |s| ==> s[i] in s;
      SortKeepsSortedInput(Recent, s);
    }
    if forall c :: c in s ==> c.unreadCount == None {
      assert forall i :: 0 <= i < |s| ==> s[i] in s;
      SortKeepsSortedInput(UnreadCount, s);
    }
  }

  // ---------------------------------------------------------------- the pipeline

  /** `filteredChats`: `(chats || [])`, filtered, then sorted. */
  function FilteredChats(chats: Option<seq<Chat>>, searchTerm: string, option: FilterOption,
                         order: SortOrder, favorites: seq<int>): (r: seq<Chat>)
    ensures chats == None ==> r == []
    ensures forall c :: c in r <==> c in chats.GetOr([]) && Keep(c, searchTerm, option, favorites)
    ensures forall c ::
      multiset(r)[c] == if Keep(c, searchTerm, option, favorites) then multiset(chats.GetOr([]))[c] else 0
    ensures Sorted(order, r)
  {
    SortChats(order, FilterChats(chats.GetOr([]), searchTerm, option, favorites))
  }

  // ---------------------------------------------------------------- favourites

  function IsNot(x: int): int -> bool {
    y => y != x
  }

  /** `toggleFavorite`: drop every occurrence of the id if present, otherwise append it. */
  function ToggleFavorite(favorites: seq<int>, chatId: int): (r: seq<int>)
    ensures chatId in r <==> chatId !in favorites
    ensures forall y :: y != chatId ==> (y in r <==> y in favorites)
    ensures chatId !in favorites ==> r == favorites + [chatId]
    ensures chatId in favorites ==> IsSubsequence(r, favorites)
    ensures forall y :: y != chatId ==> multiset(r)[y] == multiset(favorites)[y]
  {
    if chatId in favorites then
      FilterIsSubsequence(favorites, IsNot(chatId));
      FilterCount(favorites, IsNot(chatId));
      Filter(favorites, IsNot(chatId))
    else
      favorites + [chatId]
  }

  /** A favourites list built by toggling never holds an id twice. */
  lemma ToggleKeepsDistinct(favorites: seq<int>, chatId: int)
    requires Distinct(favorites)
    ensures Distinct(ToggleFavorite(favorites, chatId))
  {
    if chatId in favorites {
      FilterKeepsDistinct(favorites, IsNot(chatId));
    }
  }

  /** Toggling an absent id twice restores the exact list. */
  lemma ToggleTwiceRestoresAbsent(favorites: seq<int>, chatId: int)
    requires chatId !in favorites
    ensures ToggleFavorite(ToggleFavorite(favorites, chatId), chatId) == favorites
  {
    FilterAppend(favorites, [chatId], IsNot(chatId));
    FilterKeepsAll(favorites, IsNot(chatId));
  }

  /** Toggling any id twice restores which ids are favourites. */
  lemma ToggleTwiceRestoresMembership(favorites: seq<int>, chatId: int, y: int)
    ensures y in ToggleFavorite(ToggleFavorite(favorites, chatId), chatId) <==> y in favorites
  {
  }
}

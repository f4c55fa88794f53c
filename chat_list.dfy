/** The conversation list (`components/networking/chat/chat-list.tsx`): the demo pin and
    mute flags added to a freshly loaded list, the pinned-first then newest-first order,
    the pin, mute and delete actions, and the derived name, preview and search filter. */
module ChatList {
  import opened Text
  import opened Lists
  import opened Entities

  // ---------------------------------------------------------------- ordering

  /** `updatedAt || createdAt`, the instant a conversation is ordered by. */
  function Time(c: Chat): int
  {
    if c.updatedAt.Some? then c.updatedAt.value else c.createdAt
  }

  /** The comparator returns a negative number: a pinned conversation precedes an unpinned
      one, and between two with the same flag the more recent one comes first. */
  predicate Before(a: Chat, b: Chat)
  {
    (a.isPinned && !b.isPinned) || (a.isPinned == b.isPinned && Time(a) > Time(b))
  }

  /** No conversation precedes, by the comparator, one that is listed ahead of it. */
  predicate Sorted(s: seq<Chat>)
  {
    forall i, j :: 0 <= i < j < |s| ==> !Before(s[j], s[i])
  }

  /** No entry of `s` precedes `y`, so `y` may be listed ahead of all of them. */
  predicate NoneBefore(s: seq<Chat>, y: Chat)
  {
    forall k :: 0 <= k < |s| ==> !Before(s[k], y)
  }

  lemma SortedCons(x: Chat, s: seq<Chat>)
    requires Sorted(s) && NoneBefore(s, x)
    ensures Sorted([x] + s)
  {
    var r := [x] + s;
    forall i, j | 0 <= i < j < |r|
      ensures !Before(r[j], r[i])
    {
      assert r[j] == s[j - 1];
      if i > 0 {
        assert r[i] == s[i - 1];
      }
    }
  }

  /** Putting `c` ahead of a sorted list whose head does not precede it keeps it sorted, and
      keeps every conversation that nothing precedes free to go first. */
  lemma InsertAtHead(c: Chat, t: seq<Chat>)
    requires Sorted(t) && (t == [] || !Before(t[0], c))
    ensures Sorted([c] + t)
    ensures forall y :: NoneBefore(t, y) && !Before(c, y) ==> NoneBefore([c] + t, y)
  {
    assert NoneBefore(t, c) by {
      if t != [] {
        assert forall k :: 0 <= k < |t| ==> !Before(t[k], t[0]);
      }
    }
    SortedCons(c, t);
    forall y | NoneBefore(t, y) && !Before(c, y)
      ensures NoneBefore([c] + t, y)
    {
      assert forall k :: 1 <= k < |t| + 1 ==> ([c] + t)[k] == t[k - 1];
    }
  }

  /** Keeping the head of a sorted list ahead of a sorted insertion into its tail keeps the
      list sorted, when the head precedes the inserted conversation. */
  lemma InsertBehindHead(c: Chat, t: seq<Chat>, rest: seq<Chat>)
    requires Sorted(t) && t != [] && Before(t[0], c) && Sorted(rest)
    requires forall y :: NoneBefore(t[1..], y) && !Before(c, y) ==> NoneBefore(rest, y)
    ensures Sorted([t[0]] + rest)
    ensures forall y :: NoneBefore(t, y) && !Before(c, y) ==> NoneBefore([t[0]] + rest, y)
  {
    assert forall k :: 0 <= k < |t| - 1 ==> t[1..][k] == t[k + 1];
    assert NoneBefore(t[1..], t[0]);
    SortedCons(t[0], rest);
    forall y | NoneBefore(t, y) && !Before(c, y)
      ensures NoneBefore([t[0]] + rest, y)
    {
      assert NoneBefore(t[1..], y);
      assert forall k :: 1 <= k < |rest| + 1 ==> ([t[0]] + rest)[k] == rest[k - 1];
    }
  }

  /** Puts `c` ahead of the first entry it does not follow, so that it stays ahead of the
      entries it ties with: this keeps the sort stable, as `Array.prototype.sort` is. */
  function Insert(c: Chat, t: seq<Chat>): (r: seq<Chat>)
    requires Sorted(t)
    ensures multiset(r) == multiset(t) + multiset{c}
    ensures |r| == |t| + 1
    ensures Sorted(r)
    ensures forall y :: NoneBefore(t, y) && !Before(c, y) ==> NoneBefore(r, y)
    decreases |t|
  {
    if t == [] || !Before(t[0], c) then
      InsertAtHead(c, t);
      [c] + t
    else
      assert Sorted(t[1..]) by {
        assert forall k :: 0 <= k < |t| - 1 ==> t[1..][k] == t[k + 1];
      }
      var rest := Insert(c, t[1..]);
      InsertBehindHead(c, t, rest);
      assert t == [t[0]] + t[1..];
      [t[0]] + rest
  }

  /** The list ordered by the comparator, each entry kept once: every pinned conversation
      comes before every unpinned one, and within each group the more recent comes first. */
  function SortChats(s: seq<Chat>): (r: seq<Chat>)
    ensures multiset(r) == multiset(s) && |r| == |s|
    ensures Sorted(r)
    ensures forall i, j :: 0 <= i < j < |r| && r[j].isPinned ==> r[i].isPinned
    ensures forall i, j :: 0 <= i < j < |r| && r[i].isPinned == r[j].isPinned ==> Time(r[i]) >= Time(r[j])
    decreases |s|
  {
    if s == [] then []
    else
      assert s == [s[0]] + s[1..];
      Insert(s[0], SortChats(s[1..]))
  }

  /** The demo flags added after loading: only the first conversation is pinned and only
      the third is muted. */
  function Enhance(data: seq<Chat>): (r: seq<Chat>)
    ensures |r| == |data|
    ensures forall i :: 0 <= i < |r| ==>
      (r[i].isPinned <==> i == 0) && (r[i].isMuted <==> i == 2) &&
      r[i].(isPinned := data[i].isPinned, isMuted := data[i].isMuted) == data[i]
  {
    seq(|data|, i requires 0 <= i < |data| => data[i].(isPinned := i == 0, isMuted := i == 2))
  }

  /** A rearrangement of unpinned conversations holds no pinned one. */
  lemma UnpinnedPermutation(a: seq<Chat>, b: seq<Chat>)
    requires multiset(a) == multiset(b)
    requires forall i :: 0 <= i < |b| ==> !b[i].isPinned
    ensures forall i :: 0 <= i < |a| ==> !a[i].isPinned
  {
    forall i | 0 <= i < |a|
      ensures !a[i].isPinned
    {
      assert a[i] in multiset(a);
      assert a[i] in b;
    }
  }

  /** A pinned conversation inserted into a sorted list of unpinned ones goes first. */
  lemma InsertPinnedFirst(c: Chat, t: seq<Chat>)
    requires Sorted(t) && c.isPinned
    requires forall i :: 0 <= i < |t| ==> !t[i].isPinned
    ensures Insert(c, t) == [c] + t
  {
  }

  /** After a load, the first conversation the backend sent heads the list, and it is the only
      pinned one. */
  lemma LoadedListOrder(data: seq<Chat>)
    requires |data| > 0
    ensures var r := SortChats(Enhance(data));
      r[0] == Enhance(data)[0] && forall i :: 1 <= i < |r| ==> !r[i].isPinned
  {
    var e := Enhance(data);
    var tail := e[1..];
    assert forall i :: 0 <= i < |tail| ==> !tail[i].isPinned by {
      assert forall i :: 0 <= i < |tail| ==> tail[i] == e[i + 1];
    }
    var t := SortChats(tail);
    UnpinnedPermutation(t, tail);
    InsertPinnedFirst(e[0], t);
    assert SortChats(e) == [e[0]] + t;
  }

  // ---------------------------------------------------------------- per-conversation flags

  /** `chats.map(c => c.id === id ? {...c, isPinned: !c.isPinned} : c)`. */
  function FlipPin(chats: seq<Chat>, id: string): (r: seq<Chat>)
    ensures |r| == |chats|
    ensures forall i :: 0 <= i < |r| ==>
      r[i] == if chats[i].id == id then chats[i].(isPinned := !chats[i].isPinned) else chats[i]
  {
    seq(|chats|, i requires 0 <= i < |chats| =>
      if chats[i].id == id then chats[i].(isPinned := !chats[i].isPinned) else chats[i])
  }

  /** `chats.map(c => c.id === id ? {...c, isMuted: !c.isMuted} : c)`. */
  function FlipMute(chats: seq<Chat>, id: string): (r: seq<Chat>)
    ensures |r| == |chats|
    ensures forall i :: 0 <= i < |r| ==>
      r[i] == if chats[i].id == id then chats[i].(isMuted := !chats[i].isMuted) else chats[i]
  {
    seq(|chats|, i requires 0 <= i < |chats| =>
      if chats[i].id == id then chats[i].(isMuted := !chats[i].isMuted) else chats[i])
  }

  /** Muting twice gives back the list it started from. */
  lemma FlipMuteTwice(chats: seq<Chat>, id: string)
    ensures FlipMute(FlipMute(chats, id), id) == chats
  {
    var r := FlipMute(FlipMute(chats, id), id);
    assert forall i :: 0 <= i < |chats| ==> r[i] == chats[i];
  }

  // ---------------------------------------------------------------- derived display values

  /** `getCurrentUserId`. */
  function CurrentUserId(store: Option<string>): string
  {
    OrElse(store, "current-user-id")
  }

  /** `getChatName`: the group's name, or in a direct chat the other participant's name. */
  function ChatName(c: Chat, me: string): (r: string)
    ensures r != ""
    ensures c.isGroup && c.name.Some? && c.name.value != "" ==> r == c.name.value
    ensures c.isGroup && (c.name.None? || c.name.value == "") ==> r == "Group Chat"
    ensures !c.isGroup ==> (r == "Unknown User" ||
      exists i :: 0 <= i < |c.users| && c.users[i].userId != me && r == c.users[i].user.fullname)
    ensures !c.isGroup && (forall i :: 0 <= i < |c.users| ==> c.users[i].userId == me) ==> r == "Unknown User"
    ensures forall i :: !c.isGroup && FirstOther(c.users, me, i) ==>
      r == OrElse(Some(c.users[i].user.fullname), "Unknown User")
  {
    if c.isGroup then OrElse(c.name, "Group Chat")
    else match OtherParticipant(c.users, me)
      case Some(p) => OrElse(Some(p.user.fullname), "Unknown User")
      case None => "Unknown User"
  }

  datatype Preview = Preview(content: string, timestamp: int, isFromMe: bool)

  /** `getLastMessage`: the first message of the list (the backend sends the newest first),
      or a "No messages yet" line stamped with the conversation's creation. */
  function LastMessage(c: Chat, me: string): (r: Preview)
    ensures |c.messages| > 0 ==> (r.content == c.messages[0].content &&
      r.timestamp == c.messages[0].createdAt && (r.isFromMe <==> c.messages[0].userId == me))
    ensures |c.messages| == 0 ==> r == Preview("No messages yet", c.createdAt, false)
  {
    if |c.messages| > 0 then
      Preview(c.messages[0].content, c.messages[0].createdAt, c.messages[0].userId == me)
    else Preview("No messages yet", c.createdAt, false)
  }

  /** The search: the lower-cased query occurs in the lower-cased name or preview text. */
  predicate SearchMatches(c: Chat, query: string, me: string)
  {
    Contains(Lower(ChatName(c, me)), Lower(query)) || Contains(Lower(LastMessage(c, me).content), Lower(query))
  }

  /** `filteredChats`: the matching conversations in list order. */
  function FilteredChats(chats: seq<Chat>, query: string, me: string): (r: seq<Chat>)
    ensures |r| <= |chats|
    ensures forall i :: 0 <= i < |r| ==> r[i] in chats && SearchMatches(r[i], query, me)
    ensures forall i :: 0 <= i < |chats| && SearchMatches(chats[i], query, me) ==> chats[i] in r
    ensures IsFilterOf(r, (c: Chat) => SearchMatches(c, query, me), chats)
  {
    FilterOrder((c: Chat) => SearchMatches(c, query, me), chats);
    Filter((c: Chat) => SearchMatches(c, query, me), chats)
  }

  /** An empty search box shows the whole list, in order. */
  lemma FilterEmptyQuery(chats: seq<Chat>, me: string)
    ensures FilteredChats(chats, "", me) == chats
  {
    forall i | 0 <= i < |chats|
      ensures SearchMatches(chats[i], "", me)
    {
      ContainsEmpty(Lower(ChatName(chats[i], me)));
    }
    FilterKeepsAll((c: Chat) => SearchMatches(c, "", me), chats);
  }

  // ---------------------------------------------------------------- the view

  const MessagesRoute: string := "/habits/networking/messages"
  const LoadChatsPrefix: string := "Failed to load chats: "

  /** The state of the conversation list. */
  class ChatListView {
    var chats: seq<Chat>
    var loading: bool
    var error: Option<string>
    var showDeleteDialog: bool
    var chatToDelete: Option<string>
    var isDeleting: bool

    constructor()
      ensures chats == [] && loading && error.None? && !showDeleteDialog && chatToDelete.None? && !isDeleting
    {
      chats, loading, error := [], true, None;
      showDeleteDialog, chatToDelete, isDeleting := false, None, false;
    }

    /** `fetchChats` once its request has been answered: a list is flagged, ordered, shown
        and cached; any failure leaves the list as it was and records the error. */
    method LoadChats(store: Store, reply: Reply<seq<Chat>>)
      modifies this`chats, this`loading, this`error, store`cachedChats
      ensures !loading
      ensures store.HasToken() && Succeeded(reply) ==>
        chats == SortChats(Enhance(reply.body)) && store.cachedChats == Some(chats) && error.None?
      ensures !(store.HasToken() && Succeeded(reply)) ==>
        chats == old(chats) && store.cachedChats == old(store.cachedChats) &&
        error.Some? && StartsWith(error.value, LoadChatsPrefix)
    {
      loading, error := true, None;
      if !store.HasToken() {
        error := Some(LoadChatsPrefix + "No token found. Please login first.");
        PrefixOfConcat(LoadChatsPrefix, "No token found. Please login first.");
      } else if reply.Failed? {
        error := Some(LoadChatsPrefix + reply.message);
        PrefixOfConcat(LoadChatsPrefix, reply.message);
      } else if !IsOk(reply.status) {
        error := Some(LoadChatsPrefix + ("Failed to fetch chats: " + NatToString(reply.status)));
        PrefixOfConcat(LoadChatsPrefix, "Failed to fetch chats: " + NatToString(reply.status));
      } else {
        var sorted := SortChats(Enhance(reply.body));
        chats := sorted;
        store.cachedChats := Some(sorted);
      }
      loading := false;
    }

    /** `handleChatClick`: the clicked conversation is remembered for the conversation view;
        without a selection handler the page navigates to it. */
    method ChatClick(store: Store, id: string, hasHandler: bool) returns (route: Option<string>)
      modifies store`selectedChat
      ensures FindChat(chats, id).Some? ==> store.selectedChat == FindChat(chats, id)
      ensures FindChat(chats, id).None? ==> store.selectedChat == old(store.selectedChat)
      ensures route == if hasHandler then None else Some(MessagesRoute + "/" + id)
    {
      var found := FindChat(chats, id);
      if found.Some? {
        store.selectedChat := found;
      }
      route := if hasHandler then None else Some(MessagesRoute + "/" + id);
    }

    /** `togglePinChat`: the flag flips on the matching conversations and the list is re-ordered. */
    method TogglePin(id: string)
      modifies this`chats
      ensures chats == SortChats(FlipPin(old(chats), id))
      ensures multiset(chats) == multiset(FlipPin(old(chats), id)) && Sorted(chats)
    {
      chats := SortChats(FlipPin(chats, id));
    }

    /** `toggleMuteChat`: the flag flips on the matching conversations, nothing moves. */
    method ToggleMute(id: string)
      modifies this`chats
      ensures chats == FlipMute(old(chats), id)
    {
      chats := FlipMute(chats, id);
    }

    /** `handleDeleteChat` once the request has been answered. Without a chat to delete nothing
        happens. On success the conversation leaves the list and the cache (an absent cache
        becomes an empty one first), and the page leaves a conversation that no longer exists. */
    method DeleteChat(store: Store, activeChatId: Option<string>, reply: Reply<()>) returns (redirect: Option<string>)
      modifies this`chats, this`isDeleting, this`showDeleteDialog, this`chatToDelete, store`cachedChats
      ensures !HasId(old(chatToDelete)) ==>
        redirect.None? && chats == old(chats) && store.cachedChats == old(store.cachedChats) &&
        isDeleting == old(isDeleting) && showDeleteDialog == old(showDeleteDialog) && chatToDelete == old(chatToDelete)
      ensures HasId(old(chatToDelete)) ==> !isDeleting && !showDeleteDialog && chatToDelete.None?
      ensures HasId(old(chatToDelete)) && store.HasToken() && Succeeded(reply) ==>
        var del := old(chatToDelete).value;
        chats == Filter((c: Chat) => c.id != del, old(chats)) &&
        store.cachedChats == Some(Filter((c: Chat) => c.id != del, old(store.cachedChats).GetOr([]))) &&
        redirect == if activeChatId == Some(del) then Some(MessagesRoute) else None
      ensures HasId(old(chatToDelete)) && !(store.HasToken() && Succeeded(reply)) ==>
        redirect.None? && chats == old(chats) && store.cachedChats == old(store.cachedChats)
    {
      if !HasId(chatToDelete) {
        return None;
      }
      var del := chatToDelete.value;
      isDeleting := true;
      redirect := None;
      if store.HasToken() && Succeeded(reply) {
        chats := Filter((c: Chat) => c.id != del, chats);
        store.cachedChats := Some(Filter((c: Chat) => c.id != del, store.cachedChats.GetOr([])));
        if activeChatId == Some(del) {
          redirect := Some(MessagesRoute);
        }
      }
      isDeleting, showDeleteDialog, chatToDelete := false, false, None;
    }
  }

  /** The optional id is truthy. */
  predicate HasId(id: Option<string>)
  {
    id.Some? && id.value != ""
  }
}

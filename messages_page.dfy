/** The messages page (`app/habits/networking/messages/page.tsx`): the current user's header
    data, the chat id read from the address, chat selection, and the mobile list/chat switch. */
module MessagesPage {
  import opened Text
  import opened Entities

  /** The path every conversation lives under. */
  const ChatRoutePrefix := "/habits/networking/messages/"
  const NewChatRoute := "/habits/networking/messages/new"

  /** The address of one conversation. */
  function ChatRoute(chatId: string): (r: string)
    ensures StartsWith(r, ChatRoutePrefix) && r[|ChatRoutePrefix|..] == chatId
  {
    ChatRoutePrefix + chatId
  }

  /** The characters the regular expression `.` refuses: the four line terminators. */
  predicate IsLineTerminator(c: char)
  {
    c == '\n' || c == '\r' || c == '\U{2028}' || c == '\U{2029}'
  }

  /** What a greedy `(.+)` captures at the start of `s`: the longest run without a line
      terminator. */
  function LineRun(s: string): (r: string)
    ensures r <= s
    ensures forall i :: 0 <= i < |r| ==> !IsLineTerminator(r[i])
    ensures |r| < |s| ==> IsLineTerminator(s[|r|])
    decreases |s|
  {
    if s == [] || IsLineTerminator(s[0]) then [] else [s[0]] + LineRun(s[1..])
  }

  /** The pattern `/habits/networking/messages/(.+)` matches at position `k`. */
  predicate MatchesAt(path: string, k: nat)
  {
    k <= |path| && StartsWith(path[k..], ChatRoutePrefix) &&
    LineRun(path[k + |ChatRoutePrefix|..]) != []
  }

  /** The search for the leftmost match, from position `k` on. */
  function MatchFrom(path: string, k: nat): (r: Option<nat>)
    requires k <= |path|
    ensures r.Some? ==> k <= r.value <= |path| && MatchesAt(path, r.value) &&
                        forall j :: k <= j < r.value ==> !MatchesAt(path, j)
    ensures r.None? ==> forall j :: k <= j <= |path| ==> !MatchesAt(path, j)
    decreases |path| - k
  {
    if MatchesAt(path, k) then Some(k)
    else if k == |path| then None
    else MatchFrom(path, k + 1)
  }

  /** `path.match(/\/habits\/networking\/messages\/(.+)/)` and its first group: the address
      holds the conversation path followed by at least one character, and the id is what
      follows the leftmost such occurrence, up to the end of the line. */
  function ExtractChatId(path: string): (r: Option<string>)
    ensures r.None? <==> forall k :: 0 <= k <= |path| ==> !MatchesAt(path, k)
    ensures r.Some? ==> r.value != [] &&
                        exists k :: 0 <= k <= |path| && MatchesAt(path, k) &&
                                    r.value == LineRun(path[k + |ChatRoutePrefix|..]) &&
                                    forall j :: 0 <= j < k ==> !MatchesAt(path, j)
  {
    match MatchFrom(path, 0)
    case None => None
    case Some(k) => Some(LineRun(path[k + |ChatRoutePrefix|..]))
  }

  /** Reading back the address of a selected conversation gives its id. */
  lemma ExtractChatRoute(chatId: string)
    requires chatId != []
    requires forall i :: 0 <= i < |chatId| ==> !IsLineTerminator(chatId[i])
    ensures ExtractChatId(ChatRoute(chatId)) == Some(chatId)
  {
    var path := ChatRoute(chatId);
    assert path[0..] == path;
    assert path[|ChatRoutePrefix|..] == chatId;
    LineRunWhole(chatId);
    assert MatchesAt(path, 0);
  }

  /** A run without line terminators is captured whole. */
  lemma {:induction false} LineRunWhole(s: string)
    requires forall i :: 0 <= i < |s| ==> !IsLineTerminator(s[i])
    ensures LineRun(s) == s
    decreases |s|
  {
    if s != [] {
      LineRunWhole(s[1..]);
    }
  }

  /** The pattern does not single out the new-conversation address: read as a chat address
      it names a conversation "new". */
  lemma NewChatRouteReadsAsId()
    ensures ExtractChatId(NewChatRoute) == Some("new")
  {
    assert NewChatRoute == ChatRoute("new");
    ExtractChatRoute("new");
  }

  /** The page's own address, and the bare conversation path, select nothing. */
  lemma NoIdOnListPage()
    ensures ExtractChatId("/habits/networking/messages") == None
    ensures ExtractChatId(ChatRoutePrefix) == None
  {
    NoMatchWhenShort("/habits/networking/messages");
    var p := ChatRoutePrefix;
    assert !MatchesAt(p, 0) by {
      assert p[0..][|ChatRoutePrefix|..] == [];
    }
    NoMatchWhenShort(p);
  }

  /** No match can start where the rest of the address is too short to hold the pattern. */
  lemma NoMatchWhenShort(path: string)
    requires |path| <= |ChatRoutePrefix|
    ensures forall k :: 1 <= k <= |path| ==> !MatchesAt(path, k)
    ensures |path| < |ChatRoutePrefix| ==> !MatchesAt(path, 0)
  {
  }

  /** The header's picture of the signed-in user. */
  datatype CurrentUser = CurrentUser(id: Option<string>, name: string, avatar: string)

  /** The page's state. */
  class MessagesPageView {
    var selectedChatId: Option<string>
    var showMobileList: bool
    var currentUser: Option<CurrentUser>

    constructor()
      ensures selectedChatId.None? && showMobileList && currentUser.None?
    {
      selectedChatId, showMobileList, currentUser := None, true, None;
    }

    /** The mount effect: the header shows the stored user, with "User" and a placeholder
        picture when those are not stored; an address naming a conversation selects it and
        switches the mobile view to the conversation. */
    method Mount(store: Store, path: string)
      modifies this`selectedChatId, this`showMobileList, this`currentUser
      ensures currentUser == Some(CurrentUser(store.userId, OrElse(store.userName, "User"),
                                              OrElse(store.userAvatar, "/placeholder.svg")))
      ensures ExtractChatId(path).Some? ==> selectedChatId == ExtractChatId(path) && !showMobileList
      ensures ExtractChatId(path).None? ==>
        selectedChatId == old(selectedChatId) && showMobileList == old(showMobileList)
    {
      currentUser := Some(CurrentUser(store.userId, OrElse(store.userName, "User"),
                                      OrElse(store.userAvatar, "/placeholder.svg")));
      var found := ExtractChatId(path);
      if found.Some? {
        selectedChatId := found;
        showMobileList := false;
      }
    }

    /** `handleChatSelect`: the conversation is selected, the mobile view switches to it, and
        the browser goes to its address. */
    method ChatSelect(chatId: string) returns (route: string)
      modifies this`selectedChatId, this`showMobileList
      ensures selectedChatId == Some(chatId) && !showMobileList
      ensures route == ChatRoute(chatId)
    {
      selectedChatId := Some(chatId);
      showMobileList := false;
      route := ChatRoutePrefix + chatId;
    }

    /** `toggleMobileView`. */
    method ToggleMobileView()
      modifies this`showMobileList
      ensures showMobileList == !old(showMobileList)
    {
      showMobileList := !showMobileList;
    }

    /** The conversation's back button. */
    method Back()
      modifies this`showMobileList
      ensures showMobileList
    {
      showMobileList := true;
    }
  }
}

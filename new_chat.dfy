/** The new-conversation page (`app/habits/networking/messages/new/page.tsx`): the user
    search, the selection, the validation before creation, the search for an existing
    direct conversation in the cached list, the creation payload and the cache update
    after creation. */
module NewChat {
  import opened Text
  import opened Lists
  import opened Entities

  // ---------------------------------------------------------------- users and selection

  /** The user's e-mail is truthy and contains the query, ignoring case. */
  predicate EmailMatches(u: User, query: string)
  {
    u.email.Some? && u.email.value != "" && Contains(Lower(u.email.value), Lower(query))
  }

  /** `filteredUsers`: the users whose name or e-mail matches, in their order. */
  function FilteredUsers(users: seq<User>, query: string): (r: seq<User>)
    ensures |r| <= |users|
    ensures forall i :: 0 <= i < |r| ==> r[i] in users && (NameMatches(r[i], query) || EmailMatches(r[i], query))
    ensures forall i :: 0 <= i < |users| && (NameMatches(users[i], query) || EmailMatches(users[i], query)) ==>
      users[i] in r
    ensures IsFilterOf(r, (u: User) => NameMatches(u, query) || EmailMatches(u, query), users)
  {
    FilterOrder((u: User) => NameMatches(u, query) || EmailMatches(u, query), users);
    Filter((u: User) => NameMatches(u, query) || EmailMatches(u, query), users)
  }

  /** `toggleUserSelection`: a selected user leaves the selection, any other user joins it at the end. */
  function Toggle(sel: seq<User>, user: User): (r: seq<User>)
    ensures Selected(sel, user.id) ==> r == Without(sel, user.id)
    ensures !Selected(sel, user.id) ==> r == sel + [user]
    ensures Selected(r, user.id) <==> !Selected(sel, user.id)
  {
    if Selected(sel, user.id) then Without(sel, user.id)
    else
      assert (sel + [user])[|sel|].id == user.id;
      sel + [user]
  }

  /** Toggling a user who was not selected twice gives back the selection. */
  lemma {:induction false} ToggleTwice(sel: seq<User>, user: User)
    requires !Selected(sel, user.id)
    ensures Toggle(Toggle(sel, user), user) == sel
  {
    var p := (u: User) => u.id != user.id;
    FilterConcat(p, sel, [user]);
    FilterKeepsAll(p, sel);
    FilterDropsAll(p, [user]);
  }

  // ---------------------------------------------------------------- creation

  /** Why creation is refused before any request: nobody selected, or a group without a name. */
  function Validate(sel: seq<User>, isGroup: bool, groupName: string): (r: Option<string>)
    ensures r.None? <==> |sel| > 0 && !(isGroup && IsBlank(groupName))
    ensures |sel| == 0 ==> r == Some("Please select at least one user")
    ensures |sel| > 0 && isGroup && IsBlank(groupName) ==> r == Some("Please enter a group name")
  {
    if |sel| == 0 then Some("Please select at least one user")
    else if isGroup && IsBlank(groupName) then Some("Please enter a group name")
    else None
  }

  /** The body of the creation request. */
  datatype Payload = Payload(participantIds: seq<string>, isGroup: bool, name: Option<string>)

  /** The creation payload: the selected ids in selection order, and the name only for a group. */
  function BuildPayload(sel: seq<User>, isGroup: bool, groupName: string): (p: Payload)
    ensures |p.participantIds| == |sel| && forall i :: 0 <= i < |sel| ==> p.participantIds[i] == sel[i].id
    ensures p.isGroup == isGroup
    ensures p.name == if isGroup then Some(groupName) else None
  {
    Payload(seq(|sel|, i requires 0 <= i < |sel| => sel[i].id), isGroup, if isGroup then Some(groupName) else None)
  }

  /** A cached direct conversation of two that includes the user `id`. */
  predicate DirectWith(c: Chat, id: string)
  {
    !c.isGroup && |c.users| == 2 && (c.users[0].userId == id || c.users[1].userId == id)
  }

  /** The first cached conversation that is a direct chat with `id`. */
  function ExistingChat(cached: seq<Chat>, id: string): (r: Option<Chat>)
    ensures r.Some? ==> exists i :: 0 <= i < |cached| && cached[i] == r.value && DirectWith(r.value, id) &&
                                    forall j :: 0 <= j < i ==> !DirectWith(cached[j], id)
    ensures r.None? <==> forall i :: 0 <= i < |cached| ==> !DirectWith(cached[i], id)
    decreases |cached|
  {
    if cached == [] then None
    else if DirectWith(cached[0], id) then Some(cached[0])
    else
      var r := ExistingChat(cached[1..], id);
      assert r.Some? ==> exists i :: 1 <= i < |cached| && cached[i] == r.value && DirectWith(r.value, id) &&
                                     forall j :: 0 <= j < i ==> !DirectWith(cached[j], id) by {
        if r.Some? {
          var i :| 0 <= i < |cached[1..]| && cached[1..][i] == r.value && DirectWith(r.value, id) &&
                   forall j :: 0 <= j < i ==> !DirectWith(cached[1..][j], id);
          assert cached[i + 1] == r.value;
        }
      }
      r
  }

  /** The `for ... of` loop over the cached list, leaving at the first direct chat with `id`. */
  method FindExistingChat(cached: seq<Chat>, id: string) returns (found: Option<string>)
    ensures found == if ExistingChat(cached, id).Some? then Some(ExistingChat(cached, id).value.id) else None
  {
    found := None;
    var k := 0;
    while k < |cached|
      invariant 0 <= k <= |cached|
      invariant found.None?
      invariant forall j :: 0 <= j < k ==> !DirectWith(cached[j], id)
      invariant ExistingChat(cached, id) == ExistingChat(cached[k..], id)
    {
      var c := cached[k];
      if !c.isGroup && |c.users| == 2 {
        if c.users[0].userId == id || c.users[1].userId == id {
          found := Some(c.id);
          return;
        }
      }
      assert cached[k..][1..] == cached[k + 1..];
      k := k + 1;
    }
  }

  /** The answer of `/chats/check-exists`. */
  datatype CheckBody = CheckBody(chatExists: bool, chatId: Option<string>)

  /** The answer of the creation request: the new conversation, or on a conflict the id of
      the conversation that already exists. */
  datatype CreateBody = CreateBody(chat: Chat, conflictChatId: Option<string>)

  /** How `handleCreateChat` ends. */
  datatype CreateOutcome = Refused(reason: string) | Existing(chatId: string) | Created(chat: Chat) | CreateFailed

  predicate HasId(id: Option<string>)
  {
    id.Some? && id.value != ""
  }

  /** A direct chat with one selected user that the cached list already holds under a non-empty id. */
  predicate CachedDirect(sel: seq<User>, isGroup: bool, cached: Option<seq<Chat>>)
  {
    !isGroup && |sel| == 1 && cached.Some? && ExistingChat(cached.value, sel[0].id).Some? &&
    ExistingChat(cached.value, sel[0].id).value.id != ""
  }

  /** A direct chat with one selected user that the backend's check reports under a non-empty id. */
  predicate CheckedDirect(sel: seq<User>, isGroup: bool, check: Reply<CheckBody>)
  {
    !isGroup && |sel| == 1 && Succeeded(check) && check.body.chatExists && HasId(check.body.chatId)
  }

  /** The existing conversation a direct chat is redirected to, before any creation: the
      cached list first, then the backend's check; a failed check is ignored. */
  function KnownDirectChat(sel: seq<User>, isGroup: bool, cached: Option<seq<Chat>>, check: Reply<CheckBody>): (r: Option<string>)
    ensures r.Some? ==> !isGroup && |sel| == 1 && r.value != ""
    ensures CachedDirect(sel, isGroup, cached) ==> r == Some(ExistingChat(cached.value, sel[0].id).value.id)
    ensures !CachedDirect(sel, isGroup, cached) && CheckedDirect(sel, isGroup, check) ==> r == check.body.chatId
    ensures r.Some? <==> CachedDirect(sel, isGroup, cached) || CheckedDirect(sel, isGroup, check)
  {
    if isGroup || |sel| != 1 then None
    else
      var local := if cached.Some? then ExistingChat(cached.value, sel[0].id) else None;
      if local.Some? && local.value.id != "" then Some(local.value.id)
      else if Succeeded(check) && check.body.chatExists && HasId(check.body.chatId) then check.body.chatId
      else None
  }

  /** The outcome of `handleCreateChat` given the two backend answers. */
  function CreateDecision(sel: seq<User>, isGroup: bool, groupName: string, hasToken: bool,
                          cached: Option<seq<Chat>>, check: Reply<CheckBody>, create: Reply<CreateBody>): (r: CreateOutcome)
    ensures r.Refused? <==> Validate(sel, isGroup, groupName).Some?
    ensures r.Refused? ==> r.reason == Validate(sel, isGroup, groupName).value
    ensures r.Created? <==> Validate(sel, isGroup, groupName).None? && hasToken &&
                            KnownDirectChat(sel, isGroup, cached, check).None? && Succeeded(create)
    ensures r.Created? ==> r.chat == create.body.chat
    ensures r.Existing? ==> r.chatId != "" && hasToken
    ensures !hasToken && Validate(sel, isGroup, groupName).None? ==> r == CreateFailed
    ensures Validate(sel, isGroup, groupName).None? && hasToken && KnownDirectChat(sel, isGroup, cached, check).Some? ==>
      r == Existing(KnownDirectChat(sel, isGroup, cached, check).value)
    ensures Validate(sel, isGroup, groupName).None? && hasToken && KnownDirectChat(sel, isGroup, cached, check).None? &&
            create.Response? && create.status == 409 && HasId(create.body.conflictChatId) ==>
      r == Existing(create.body.conflictChatId.value)
    ensures r == CreateFailed <==> (Validate(sel, isGroup, groupName).None? &&
      (!hasToken || (KnownDirectChat(sel, isGroup, cached, check).None? && !Succeeded(create) &&
                     !(create.Response? && create.status == 409 && HasId(create.body.conflictChatId)))))
  {
    if Validate(sel, isGroup, groupName).Some? then Refused(Validate(sel, isGroup, groupName).value)
    else if !hasToken then CreateFailed
    else match KnownDirectChat(sel, isGroup, cached, check)
      case Some(id) => Existing(id)
      case None =>
        match create
        case Failed(_) => CreateFailed
        case Response(status, body) =>
          if IsOk(status) then Created(body.chat)
          else if status == 409 && HasId(body.conflictChatId) then Existing(body.conflictChatId.value)
          else CreateFailed
  }

  /** A freshly created conversation goes to the head of the cached list, and only into a
      list that already exists. */
  function CacheAfterCreate(cached: Option<seq<Chat>>, chat: Chat): (r: Option<seq<Chat>>)
    ensures cached.None? ==> r.None?
    ensures cached.Some? ==> r.Some? && |r.value| == |cached.value| + 1 && r.value[0] == chat && r.value[1..] == cached.value
  {
    if cached.Some? then Some([chat] + cached.value) else None
  }

  // ---------------------------------------------------------------- the page

  class NewChatPage {
    var users: seq<User>
    var loading: bool
    var error: Option<string>
    var searchQuery: string
    var selectedUsers: seq<User>
    var isGroup: bool
    var groupName: string
    var isSubmitting: bool

    constructor()
      ensures users == [] && loading && error.None? && searchQuery == "" && selectedUsers == []
      ensures !isGroup && groupName == "" && !isSubmitting
    {
      users, loading, error, searchQuery := [], true, None, "";
      selectedUsers, isGroup, groupName, isSubmitting := [], false, "", false;
    }

    /** `fetchUsers` once answered: every user but the current one, in the backend's order. */
    method FetchUsers(store: Store, reply: Reply<seq<User>>)
      modifies this`users, this`loading, this`error
      ensures !loading
      ensures store.HasToken() && Succeeded(reply) ==>
        var me := OrElse(store.userId, "current-user-id");
        users == Filter((u: User) => u.id != me, reply.body) && error.None? &&
        forall i :: 0 <= i < |users| ==> users[i].id != me
      ensures !(store.HasToken() && Succeeded(reply)) ==> users == old(users) && error.Some?
    {
      loading, error := true, None;
      if !store.HasToken() {
        error := Some("Failed to load users: No token found. Please login first.");
      } else if reply.Failed? {
        error := Some("Failed to load users: " + reply.message);
      } else if !IsOk(reply.status) {
        error := Some("Failed to load users: Failed to fetch users: " + NatToString(reply.status));
      } else {
        var me := OrElse(store.userId, "current-user-id");
        users := Filter((u: User) => u.id != me, reply.body);
      }
      loading := false;
    }

    method ToggleUserSelection(user: User)
      modifies this`selectedUsers
      ensures selectedUsers == Toggle(old(selectedUsers), user)
    {
      if exists i :: 0 <= i < |selectedUsers| && selectedUsers[i].id == user.id {
        selectedUsers := Filter((u: User) => u.id != user.id, selectedUsers);
      } else {
        selectedUsers := selectedUsers + [user];
      }
    }

    method RemoveUser(id: string)
      modifies this`selectedUsers
      ensures selectedUsers == Without(old(selectedUsers), id)
    {
      selectedUsers := Filter((u: User) => u.id != id, selectedUsers);
    }

    /** `handleCreateChat` with the answers of the existence check and of the creation request.
        `payload` is the body sent for creation, when creation is attempted at all. */
    method CreateChat(store: Store, check: Reply<CheckBody>, create: Reply<CreateBody>)
      returns (outcome: CreateOutcome, payload: Option<Payload>)
      modifies this`isSubmitting, store`cachedChats, store`selectedChat
      ensures outcome == CreateDecision(selectedUsers, isGroup, groupName, old(store.HasToken()),
                                        old(store.cachedChats), check, create)
      ensures payload.Some? ==> payload.value == BuildPayload(selectedUsers, isGroup, groupName)
      ensures outcome.Created? ==> (payload.Some? &&
        store.cachedChats == CacheAfterCreate(old(store.cachedChats), outcome.chat) &&
        store.selectedChat == Some(outcome.chat))
      ensures !outcome.Created? ==>
        store.cachedChats == old(store.cachedChats) && store.selectedChat == old(store.selectedChat)
      ensures outcome.Refused? ==> payload.None? && isSubmitting == old(isSubmitting)
      ensures !outcome.Refused? ==> !isSubmitting
    {
      payload := None;
      ghost var known := KnownDirectChat(selectedUsers, isGroup, store.cachedChats, check);
      var invalid := Validate(selectedUsers, isGroup, groupName);
      if invalid.Some? {
        return Refused(invalid.value), None;
      }
      isSubmitting := true;
      if !store.HasToken() {
        isSubmitting := false;
        return CreateFailed, None;
      }
      if !isGroup && |selectedUsers| == 1 {
        if store.cachedChats.Some? {
          var existing := FindExistingChat(store.cachedChats.value, selectedUsers[0].id);
          if existing.Some? && existing.value != "" {
            assert known == existing;
            isSubmitting := false;
            return Existing(existing.value), None;
          }
        }
        if Succeeded(check) && check.body.chatExists && HasId(check.body.chatId) {
          assert known == check.body.chatId;
          isSubmitting := false;
          return Existing(check.body.chatId.value), None;
        }
      }
      assert known.None?;
      payload := Some(BuildPayload(selectedUsers, isGroup, groupName));
      if create.Failed? {
        outcome := CreateFailed;
      } else if !IsOk(create.status) {
        if create.status == 409 && HasId(create.body.conflictChatId) {
          outcome := Existing(create.body.conflictChatId.value);
        } else {
          outcome := CreateFailed;
        }
      } else {
        var chat := create.body.chat;
        if store.cachedChats.Some? {
          store.cachedChats := Some([chat] + store.cachedChats.value);
        }
        store.selectedChat := Some(chat);
        outcome := Created(chat);
      }
      isSubmitting := false;
    }
  }
}

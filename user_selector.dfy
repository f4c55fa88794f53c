/** The participant picker (`components/networking/chat/user-selector.tsx`): a selection
    toggled by user id under a `maxUsers` bound, the removal of one user, the name search
    and the exclusion of the current user from the list it offers. */
module UserSelector {
  import opened Lists
  import opened Entities

  /** The `maxUsers` property when the caller leaves it out. */
  const DefaultMaxUsers: int := 10

  /** `handleSelectUser`: a new user is refused once the selection holds `maxUsers` users;
      deselecting is always allowed; otherwise the user's membership flips. */
  function SelectUser(sel: seq<User>, user: User, maxUsers: int): (r: seq<User>)
    ensures |sel| >= maxUsers && !Selected(sel, user.id) ==> r == sel
    ensures Selected(sel, user.id) ==> r == Without(sel, user.id)
    ensures |sel| < maxUsers && !Selected(sel, user.id) ==> r == sel + [user]
    ensures |sel| <= maxUsers ==> |r| <= maxUsers
  {
    if |sel| >= maxUsers && !Selected(sel, user.id) then sel
    else if Selected(sel, user.id) then Without(sel, user.id)
    else sel + [user]
  }

  /** A selection that starts within the bound stays within it, whatever users are clicked. */
  lemma {:induction false} SelectionStaysBounded(sel: seq<User>, clicks: seq<User>, maxUsers: int)
    requires |sel| <= maxUsers
    ensures |Replay(sel, clicks, maxUsers)| <= maxUsers
    decreases |clicks|
  {
    if clicks != [] {
      SelectionStaysBounded(SelectUser(sel, clicks[0], maxUsers), clicks[1..], maxUsers);
    }
  }

  /** The selection after a sequence of clicks. */
  function Replay(sel: seq<User>, clicks: seq<User>, maxUsers: int): seq<User>
    decreases |clicks|
  {
    if clicks == [] then sel else Replay(SelectUser(sel, clicks[0], maxUsers), clicks[1..], maxUsers)
  }

  /** The state of the picker. */
  class UserSelectorView {
    const maxUsers: int
    var searchQuery: string
    var users: seq<User>
    var selectedUsers: seq<User>
    var loading: bool

    /** `maxUsers` defaults to ten. */
    constructor(maxUsers: Option<int>)
      ensures this.maxUsers == maxUsers.GetOr(DefaultMaxUsers)
      ensures searchQuery == "" && users == [] && selectedUsers == [] && !loading
    {
      this.maxUsers := maxUsers.GetOr(DefaultMaxUsers);
      searchQuery, users, selectedUsers, loading := "", [], [], false;
    }

    ghost predicate WithinBound()
      reads this
    {
      |selectedUsers| <= maxUsers
    }

    /** `fetchUsers` once answered: every user but the current one; a failure keeps the list. */
    method FetchUsers(store: Store, reply: Reply<seq<User>>)
      modifies this`users, this`loading
      ensures !loading
      ensures store.HasToken() && Succeeded(reply) ==>
        var me := OrElse(store.userId, "current-user-id");
        users == Filter((u: User) => u.id != me, reply.body) &&
        forall i :: 0 <= i < |users| ==> users[i].id != me
      ensures !(store.HasToken() && Succeeded(reply)) ==> users == old(users)
    {
      loading := true;
      if store.HasToken() && Succeeded(reply) {
        var me := OrElse(store.userId, "current-user-id");
        users := Filter((u: User) => u.id != me, reply.body);
      }
      loading := false;
    }

    /** `handleSelectUser`; the answer says whether the click was refused at the bound. */
    method HandleSelectUser(user: User) returns (refused: bool)
      modifies this`selectedUsers
      ensures selectedUsers == SelectUser(old(selectedUsers), user, maxUsers)
      ensures refused <==> |old(selectedUsers)| >= maxUsers && !Selected(old(selectedUsers), user.id)
      ensures old(WithinBound()) ==> WithinBound()
    {
      var present := exists i :: 0 <= i < |selectedUsers| && selectedUsers[i].id == user.id;
      if |selectedUsers| >= maxUsers && !present {
        return true;
      }
      refused := false;
      if present {
        selectedUsers := Filter((u: User) => u.id != user.id, selectedUsers);
      } else {
        selectedUsers := selectedUsers + [user];
      }
    }

    method RemoveUser(id: string)
      modifies this`selectedUsers
      ensures selectedUsers == Without(old(selectedUsers), id)
      ensures old(WithinBound()) ==> WithinBound()
    {
      selectedUsers := Filter((u: User) => u.id != id, selectedUsers);
    }
  }
}

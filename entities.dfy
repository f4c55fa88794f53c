/** The records the chat screens exchange with the REST backend, the browser
    storage keys they share, and the shape of a backend reply. */
module Entities {
  import opened Text
  import opened Lists

  datatype Option<+T> = None | Some(value: T) {
    function GetOr(default: T): T
    {
      if Some? then value else default
    }
  }

  /** A user summary: `id`, `fullname`, optional `profile_photo` and `email`. */
  datatype User = User(id: string, fullname: string, photo: Option<string>, email: Option<string>)

  /** The case-insensitive name search every user picker applies:
      `user.fullname.toLowerCase().includes(query.toLowerCase())`. */
  predicate NameMatches(u: User, query: string)
  {
    Contains(Lower(u.fullname), Lower(query))
  }

  /** The users whose name matches the query, in their original order. */
  function SearchByName(users: seq<User>, query: string): (r: seq<User>)
    ensures |r| <= |users|
    ensures forall i :: 0 <= i < |r| ==> r[i] in users && NameMatches(r[i], query)
    ensures forall i :: 0 <= i < |users| && NameMatches(users[i], query) ==> users[i] in r
    ensures IsFilterOf(r, (u: User) => NameMatches(u, query), users)
  {
    FilterOrder((u: User) => NameMatches(u, query), users);
    Filter((u: User) => NameMatches(u, query), users)
  }

  /** An empty search box shows every user. */
  lemma SearchEmptyKeepsAll(users: seq<User>)
    ensures SearchByName(users, "") == users
  {
    forall i | 0 <= i < |users|
      ensures NameMatches(users[i], "")
    {
      ContainsEmpty(Lower(users[i].fullname));
    }
    FilterKeepsAll(u => NameMatches(u, ""), users);
  }

  /** A user with this id is in the selection. */
  predicate Selected(sel: seq<User>, id: string)
  {
    exists i :: 0 <= i < |sel| && sel[i].id == id
  }

  /** The selection without any entry for `id`, the rest in order. */
  function Without(sel: seq<User>, id: string): (r: seq<User>)
    ensures |r| <= |sel| && !Selected(r, id)
    ensures forall i :: 0 <= i < |sel| && sel[i].id != id ==> sel[i] in r
    ensures forall i :: 0 <= i < |r| ==> r[i] in sel
    ensures IsFilterOf(r, (u: User) => u.id != id, sel)
  {
    FilterOrder((u: User) => u.id != id, sel);
    Filter((u: User) => u.id != id, sel)
  }

  /** A member of a conversation with its embedded user summary. */
  datatype Participant = Participant(userId: string, chatId: string, joinedAt: int, user: User)

  /** The four renderings of a message, chosen from its file URL. */
  datatype MessageKind = PlainText | Image | File | Voice

  /** A chat message. Timestamps are integers; `userId` is the author's id as the
      conversation list reads it, `user` the author's summary as the conversation view reads it. */
  datatype Message = Message(
    id: string,
    content: string,
    createdAt: int,
    userId: string,
    user: User,
    kind: MessageKind,
    fileUrl: Option<string>,
    fileName: Option<string>,
    fileSize: Option<string>,
    duration: Option<string>)

  /** A conversation. `isPinned` and `isMuted` are the client-only flags of the conversation list. */
  datatype Chat = Chat(
    id: string,
    name: Option<string>,
    isGroup: bool,
    adminId: Option<string>,
    createdAt: int,
    updatedAt: Option<int>,
    users: seq<Participant>,
    messages: seq<Message>,
    isPinned: bool,
    isMuted: bool)

  /** A file the browser handed over (a `File`): its name, MIME type and size in bytes. */
  datatype LocalFile = LocalFile(name: string, mimeType: string, size: nat)

  /** What an awaited `fetch` produced: a transport failure (its error message), or a
      status code with the parsed JSON body. */
  datatype Reply<T> = Failed(message: string) | Response(status: nat, body: T)

  /** `response.ok`. */
  predicate IsOk(status: nat)
  {
    200 <= status <= 299
  }

  predicate Succeeded<T>(r: Reply<T>)
  {
    r.Response? && IsOk(r.status)
  }

  /** `x || fallback` on an optional string: a missing value and the empty string both fall back. */
  function OrElse(x: Option<string>, fallback: string): (r: string)
    ensures x.Some? && x.value != "" ==> r == x.value
    ensures x.None? || x.value == "" ==> r == fallback
  {
    if x.Some? && x.value != "" then x.value else fallback
  }

  /** `chats.find(c => c.id === id)`: the first conversation with that id. */
  function FindChat(chats: seq<Chat>, id: string): (r: Option<Chat>)
    ensures r.Some? ==> exists i :: 0 <= i < |chats| && chats[i] == r.value && r.value.id == id &&
                                    forall j :: 0 <= j < i ==> chats[j].id != id
    ensures r.None? <==> forall i :: 0 <= i < |chats| ==> chats[i].id != id
    decreases |chats|
  {
    if chats == [] then None
    else if chats[0].id == id then Some(chats[0])
    else
      var r := FindChat(chats[1..], id);
      assert r.Some? ==> exists i :: 1 <= i < |chats| && chats[i] == r.value && r.value.id == id &&
                                     forall j :: 0 <= j < i ==> chats[j].id != id by {
        if r.Some? {
          var i :| 0 <= i < |chats[1..]| && chats[1..][i] == r.value && r.value.id == id &&
                   forall j :: 0 <= j < i ==> chats[1..][j].id != id;
          assert chats[i + 1] == r.value;
        }
      }
      r
  }

  /** Position `i` holds the first participant whose id is not `me`. */
  predicate FirstOther(users: seq<Participant>, me: string, i: int)
  {
    0 <= i < |users| && users[i].userId != me && forall j :: 0 <= j < i ==> users[j].userId == me
  }

  /** `users.find(u => u.userId !== me)`: the first participant other than the current user. */
  function OtherParticipant(users: seq<Participant>, me: string): (r: Option<Participant>)
    ensures forall i :: FirstOther(users, me, i) ==> r == Some(users[i])
    ensures r.Some? ==> r.value in users && r.value.userId != me
    ensures r.Some? ==> exists i :: FirstOther(users, me, i) && users[i] == r.value
    ensures r.None? <==> forall i :: 0 <= i < |users| ==> users[i].userId == me
    decreases |users|
  {
    if users == [] then None
    else if users[0].userId != me then
      assert FirstOther(users, me, 0);
      Some(users[0])
    else
      var r := OtherParticipant(users[1..], me);
      forall i ensures FirstOther(users, me, i) <==> 1 <= i && FirstOther(users[1..], me, i - 1) {
        FirstOtherShift(users, me, i);
      }
      assert r.Some? ==> exists i :: FirstOther(users, me, i) && users[i] == r.value by {
        if r.Some? {
          var i :| FirstOther(users[1..], me, i) && users[1..][i] == r.value;
          assert FirstOther(users, me, i + 1);
        }
      }
      assert r.None? <==> forall i :: 0 <= i < |users| ==> users[i].userId == me by {
        assert forall i :: 1 <= i < |users| ==> users[i] == users[1..][i - 1];
      }
      r
  }

  /** Behind a leading entry of the current user, the first other participant is one place
      further than in the rest of the list. */
  lemma FirstOtherShift(users: seq<Participant>, me: string, i: int)
    requires users != [] && users[0].userId == me
    ensures FirstOther(users, me, i) <==> 1 <= i && FirstOther(users[1..], me, i - 1)
  {
    if 1 <= i <= |users| {
      assert forall j :: 0 <= j < i - 1 ==> users[1..][j] == users[j + 1];
    }
  }

  /** The browser's key-value storage as the chat screens use it. A stored empty string
      reads like a missing key, since every read site tests the value's truthiness. */
  class Store {
    var accessToken: Option<string>
    var userId: Option<string>
    var userName: Option<string>
    var userAvatar: Option<string>
    var cachedChats: Option<seq<Chat>>
    var selectedChat: Option<Chat>

    constructor(accessToken: Option<string>, userId: Option<string>,
                cachedChats: Option<seq<Chat>>, selectedChat: Option<Chat>)
      ensures this.accessToken == accessToken && this.userId == userId
      ensures this.cachedChats == cachedChats && this.selectedChat == selectedChat
      ensures userName == None && userAvatar == None
    {
      this.accessToken := accessToken;
      this.userId := userId;
      this.userName := None;
      this.userAvatar := None;
      this.cachedChats := cachedChats;
      this.selectedChat := selectedChat;
    }

    /** `localStorage.getItem("access_token")` read for truthiness. */
    predicate HasToken()
      reads this
    {
      accessToken.Some? && accessToken.value != ""
    }
  }
}

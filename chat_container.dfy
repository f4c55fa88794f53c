/** The conversation view (`components/networking/chat/chat-container.tsx`): how a
    message is classified from its file URL, where the conversation is loaded from
    (the cached selection, the cached list or the backend), the optimistic send with
    its `temp-` placeholder, and the state of an audio or video call. Every backend
    reply and every storage value is an input; the object URL of a picked file and
    its formatted size are inputs too. */
module ChatContainer {
  import opened Text
  import opened Lists
  import opened Entities
  import Clock

  // ---------------------------------------------------------------- message kind

  /** The extensions of the two patterns `/\.(jpeg|jpg|gif|png|webp)$/i` and `/\.(mp3|wav|ogg)$/i`. */
  const ImageExtensions: seq<string> := ["jpeg", "jpg", "gif", "png", "webp"]
  const VoiceExtensions: seq<string> := ["mp3", "wav", "ogg"]

  /** The URL ends, ignoring case, in a dot followed by one of the extensions. */
  predicate EndsWithExtension(url: string, exts: seq<string>)
  {
    exists i :: 0 <= i < |exts| && EndsWith(Lower(url), "." + exts[i])
  }

  /** The image pattern, alternative by alternative. */
  predicate MatchesImagePattern(url: string)
  {
    var u := Lower(url);
    EndsWith(u, ".jpeg") || EndsWith(u, ".jpg") || EndsWith(u, ".gif") ||
    EndsWith(u, ".png") || EndsWith(u, ".webp")
  }

  /** The voice pattern, alternative by alternative. */
  predicate MatchesVoicePattern(url: string)
  {
    var u := Lower(url);
    EndsWith(u, ".mp3") || EndsWith(u, ".wav") || EndsWith(u, ".ogg")
  }

  lemma ImagePattern(url: string)
    ensures MatchesImagePattern(url) <==> EndsWithExtension(url, ImageExtensions)
  {
    assert "." + ImageExtensions[0] == ".jpeg" && "." + ImageExtensions[1] == ".jpg";
    assert "." + ImageExtensions[2] == ".gif" && "." + ImageExtensions[3] == ".png";
    assert "." + ImageExtensions[4] == ".webp";
  }

  lemma VoicePattern(url: string)
    ensures MatchesVoicePattern(url) <==> EndsWithExtension(url, VoiceExtensions)
  {
    assert "." + VoiceExtensions[0] == ".mp3" && "." + VoiceExtensions[1] == ".wav";
    assert "." + VoiceExtensions[2] == ".ogg";
  }

  /** `message.fileUrl` is truthy. */
  predicate HasUrl(fileUrl: Option<string>)
  {
    fileUrl.Some? && fileUrl.value != ""
  }

  /** `determineMessageType`: text without a file URL; otherwise image, then voice, then
      file, the image test taking precedence. */
  function MessageType(fileUrl: Option<string>): (k: MessageKind)
    ensures k == PlainText <==> !HasUrl(fileUrl)
    ensures k == Image <==> HasUrl(fileUrl) && EndsWithExtension(fileUrl.value, ImageExtensions)
    ensures k == Voice <==> HasUrl(fileUrl) && !EndsWithExtension(fileUrl.value, ImageExtensions) &&
                            EndsWithExtension(fileUrl.value, VoiceExtensions)
  {
    if !HasUrl(fileUrl) then PlainText
    else
      ImagePattern(fileUrl.value);
      VoicePattern(fileUrl.value);
      if MatchesImagePattern(fileUrl.value) then Image
      else if MatchesVoicePattern(fileUrl.value) then Voice
      else File
  }

  /** The messages of a loaded conversation, each tagged with its kind; nothing else changes. */
  function FormatMessages(msgs: seq<Message>): (r: seq<Message>)
    ensures |r| == |msgs|
    ensures forall i :: 0 <= i < |msgs| ==>
      r[i].kind == MessageType(msgs[i].fileUrl) && r[i].(kind := msgs[i].kind) == msgs[i]
  {
    seq(|msgs|, i requires 0 <= i < |msgs| => msgs[i].(kind := MessageType(msgs[i].fileUrl)))
  }

  // ---------------------------------------------------------------- loading a conversation

  /** The route parameter is truthy. */
  predicate HasChatId(chatId: Option<string>)
  {
    chatId.Some? && chatId.value != ""
  }

  datatype CacheLookup = Hit(chat: Chat) | Miss

  /** The cache consultation of `fetchMessages`: a cached selection with the right id wins;
      the cached list is searched only when there is no cached selection at all, so a
      stale selection sends the view to the backend. */
  function LookupCache(chatId: string, selected: Option<Chat>, cached: Option<seq<Chat>>): (r: CacheLookup)
    ensures r.Hit? ==> r.chat.id == chatId
    ensures selected.Some? ==> (r.Hit? <==> selected.value.id == chatId) && (r.Hit? ==> r.chat == selected.value)
    ensures selected.None? ==>
      (r.Hit? <==> cached.Some? && exists i :: 0 <= i < |cached.value| && cached.value[i].id == chatId)
    ensures selected.None? && r.Hit? ==> r.chat in cached.value
  {
    if selected.Some? then
      if selected.value.id == chatId then Hit(selected.value) else Miss
    else if cached.Some? then
      match FindChat(cached.value, chatId)
      case Some(c) => Hit(c)
      case None => Miss
    else Miss
  }

  /** How `fetchMessages` ends. */
  datatype FetchOutcome = NoChat | Cached(chat: Chat) | NotFound | LoadFailed(message: string) | Loaded(chat: Chat)

  const LoadErrorPrefix: string := "Failed to load chat: "
  const NoTokenMessage: string := "No token found. Please login first."

  /** The outcome of `fetchMessages`: no route id, a cache hit, or the backend's answer. A 404
      is "not found" and never an error; every other failure is an error message. */
  function FetchDecision(chatId: Option<string>, selected: Option<Chat>, cached: Option<seq<Chat>>,
                         hasToken: bool, reply: Reply<Chat>): (r: FetchOutcome)
    ensures r.NoChat? <==> !HasChatId(chatId)
    ensures r.Cached? <==> HasChatId(chatId) && LookupCache(chatId.value, selected, cached).Hit?
    ensures r.Cached? ==> r.chat.id == chatId.value
    ensures r.NotFound? <==> HasChatId(chatId) && LookupCache(chatId.value, selected, cached).Miss? &&
                             hasToken && reply.Response? && reply.status == 404
    ensures r.Loaded? <==> HasChatId(chatId) && LookupCache(chatId.value, selected, cached).Miss? &&
                           hasToken && Succeeded(reply)
    ensures r.Loaded? ==> r.chat == reply.body
    ensures r.LoadFailed? ==> StartsWith(r.message, LoadErrorPrefix)
    ensures r.LoadFailed? && !hasToken ==> r.message == LoadErrorPrefix + NoTokenMessage
  {
    if !HasChatId(chatId) then NoChat
    else match LookupCache(chatId.value, selected, cached)
      case Hit(c) => Cached(c)
      case Miss =>
        if !hasToken then LoadFailed(LoadErrorPrefix + NoTokenMessage)
        else match reply
          case Failed(m) => LoadFailed(LoadErrorPrefix + m)
          case Response(status, body) =>
            if status == 404 then NotFound
            else if !IsOk(status) then LoadFailed(LoadErrorPrefix + LoadErrorPrefix + NatToString(status))
            else Loaded(body)
  }

  /** The part of the view `updateChatData` writes. */
  datatype ChatShown = ChatShown(
    chatData: Option<Chat>,
    chatName: string,
    isGroup: bool,
    adminId: Option<string>,
    participants: seq<Participant>,
    callPartner: Option<User>,
    messages: seq<Message>)

  /** The header title: the group's name, or the other participant's name in a direct chat. */
  function ChatTitle(data: Chat, me: string): (r: string)
    ensures r != ""
    ensures data.isGroup && HasUrl(data.name) ==> r == data.name.value
    ensures data.isGroup && !HasUrl(data.name) ==> r == "Group Chat"
    ensures !data.isGroup ==> (r == "Chat" ||
      exists i :: 0 <= i < |data.users| && data.users[i].userId != me && r == data.users[i].user.fullname)
    ensures !data.isGroup && (forall i :: 0 <= i < |data.users| ==> data.users[i].userId == me) ==> r == "Chat"
    ensures forall i :: !data.isGroup && FirstOther(data.users, me, i) ==>
      r == OrElse(Some(data.users[i].user.fullname), "Chat")
  {
    if data.isGroup then OrElse(data.name, "Group Chat")
    else match OtherParticipant(data.users, me)
      case Some(p) => OrElse(Some(p.user.fullname), "Chat")
      case None => "Chat"
  }

  /** `updateChatData`: shows the conversation. A direct chat keeps the previous admin id, and
      keeps the previous call partner when no other participant exists. */
  function ShowChat(h: ChatShown, data: Chat, me: string): (r: ChatShown)
    ensures r.chatData == Some(data) && r.isGroup == data.isGroup && r.participants == data.users
    ensures r.chatName == ChatTitle(data, me)
    ensures r.messages == FormatMessages(data.messages)
    ensures data.isGroup ==> r.adminId == data.adminId && r.callPartner == h.callPartner
    ensures !data.isGroup ==> r.adminId == h.adminId
    ensures !data.isGroup && r.callPartner != h.callPartner ==>
      exists i :: 0 <= i < |data.users| && data.users[i].userId != me && r.callPartner == Some(data.users[i].user)
    ensures !data.isGroup && (exists i :: 0 <= i < |data.users| && data.users[i].userId != me) ==>
      exists i :: 0 <= i < |data.users| && data.users[i].userId != me && r.callPartner == Some(data.users[i].user)
    ensures forall i :: !data.isGroup && FirstOther(data.users, me, i) ==> r.callPartner == Some(data.users[i].user)
    ensures !data.isGroup && (forall i :: 0 <= i < |data.users| ==> data.users[i].userId == me) ==>
      r.callPartner == h.callPartner
  {
    var other := if data.isGroup then None else OtherParticipant(data.users, me);
    h.(chatData := Some(data),
       chatName := ChatTitle(data, me),
       isGroup := data.isGroup,
       adminId := if data.isGroup then data.adminId else h.adminId,
       callPartner := if other.Some? then Some(other.value.user) else h.callPartner,
       participants := data.users,
       messages := FormatMessages(data.messages))
  }

  // ---------------------------------------------------------------- sending

  /** The guard of `handleSendMessage`: something to send, a conversation, and no send in flight. */
  predicate SendAllowed(text: string, fileInput: Option<LocalFile>, imageInput: Option<LocalFile>,
                        chatId: Option<string>, isSending: bool)
  {
    !(IsBlank(text) && fileInput.None? && imageInput.None?) && HasChatId(chatId) && !isSending
  }

  const PlaceholderPrefix: string := "temp-"

  /** The id of the placeholder created at time `now`. */
  function TempId(now: nat): (r: string)
    ensures StartsWith(r, PlaceholderPrefix)
  {
    PlaceholderPrefix + NatToString(now)
  }

  predicate IsPlaceholder(m: Message)
  {
    StartsWith(m.id, PlaceholderPrefix)
  }

  /** Position `i` holds the first participant entry of the current user. */
  predicate FirstMine(participants: seq<Participant>, me: string, i: int)
  {
    0 <= i < |participants| && participants[i].userId == me && forall j :: 0 <= j < i ==> participants[j].userId != me
  }

  /** The author shown on the placeholder: the current user's participant entry (the first one,
      as `find` returns), or a stand-in named "You". */
  function Author(participants: seq<Participant>, me: string): (u: User)
    ensures forall i :: FirstMine(participants, me, i) ==> u == participants[i].user
    ensures (exists i :: 0 <= i < |participants| && participants[i].userId == me) ==>
      exists i :: 0 <= i < |participants| && participants[i].userId == me && u == participants[i].user
    ensures (forall i :: 0 <= i < |participants| ==> participants[i].userId != me) ==> u == User(me, "You", None, None)
    decreases |participants|
  {
    if participants == [] then User(me, "You", None, None)
    else if participants[0].userId == me then
      assert FirstMine(participants, me, 0);
      participants[0].user
    else
      var rest := participants[1..];
      var u := Author(rest, me);
      forall i | FirstMine(participants, me, i)
        ensures u == participants[i].user
      {
        FirstMineShift(participants, me, i);
        assert rest[i - 1] == participants[i];
      }
      assert (exists i :: 0 <= i < |rest| && rest[i].userId == me && u == rest[i].user) ==>
        exists i :: 0 <= i < |participants| && participants[i].userId == me && u == participants[i].user by {
        if exists i :: 0 <= i < |rest| && rest[i].userId == me && u == rest[i].user {
          var i :| 0 <= i < |rest| && rest[i].userId == me && u == rest[i].user;
          assert participants[i + 1] == rest[i];
        }
      }
      assert (forall i :: 0 <= i < |rest| ==> rest[i].userId != me) <==>
             (forall i :: 0 <= i < |participants| ==> participants[i].userId != me) by {
        assert forall i :: 1 <= i < |participants| ==> participants[i] == rest[i - 1];
      }
      u
  }

  /** Behind a leading entry of someone else, the current user's first entry is one place
      further than in the rest of the list. */
  lemma FirstMineShift(participants: seq<Participant>, me: string, i: int)
    requires participants != [] && participants[0].userId != me
    ensures FirstMine(participants, me, i) <==> 1 <= i && FirstMine(participants[1..], me, i - 1)
  {
    if 1 <= i <= |participants| {
      assert forall j :: 0 <= j < i - 1 ==> participants[1..][j] == participants[j + 1];
    }
  }

  /** The placeholder message shown while the send is in flight: a voice note for an audio
      file, a file card for any other file, an image for a picked image, plain text otherwise. */
  function Placeholder(tempId: string, text: string, now: int, author: User,
                       fileInput: Option<LocalFile>, imageInput: Option<LocalFile>,
                       objectUrl: string, sizeLabel: string): (m: Message)
    ensures m.id == tempId && m.content == text && m.createdAt == now && m.user == author
    ensures fileInput.Some? && StartsWith(fileInput.value.mimeType, "audio/") ==>
      m.kind == Voice && m.fileUrl == Some(objectUrl) && m.duration == Some("00:00")
    ensures fileInput.Some? && !StartsWith(fileInput.value.mimeType, "audio/") ==>
      m.kind == File && m.fileUrl == Some(objectUrl) &&
      m.fileName == Some(fileInput.value.name) && m.fileSize == Some(sizeLabel)
    ensures fileInput.None? && imageInput.Some? ==> m.kind == Image && m.fileUrl == Some(objectUrl)
    ensures fileInput.None? && imageInput.None? ==> m.kind == PlainText && m.fileUrl == None
  {
    var base := Message(tempId, text, now, author.id, author, PlainText, None, None, None, None);
    if fileInput.Some? then
      if StartsWith(fileInput.value.mimeType, "audio/") then
        base.(kind := Voice, fileUrl := Some(objectUrl), duration := Some("00:00"))
      else
        base.(kind := File, fileUrl := Some(objectUrl), fileName := Some(fileInput.value.name),
              fileSize := Some(sizeLabel))
    else if imageInput.Some? then base.(kind := Image, fileUrl := Some(objectUrl))
    else base
  }

  /** The message the backend returned, tagged with its kind. */
  function Confirmed(data: Message): (m: Message)
    ensures m.kind == MessageType(data.fileUrl) && m.(kind := data.kind) == data
  {
    data.(kind := MessageType(data.fileUrl))
  }

  /** The list after the backend answered a send: on success the entry with the placeholder's id
      is replaced in place; on any failure every placeholder is dropped, whoever created it. */
  function Settle(msgs: seq<Message>, tempId: string, reply: Reply<Message>): (r: seq<Message>)
    ensures Succeeded(reply) ==> (|r| == |msgs| &&
      forall i :: 0 <= i < |msgs| ==> r[i] == if msgs[i].id == tempId then Confirmed(reply.body) else msgs[i])
    ensures !Succeeded(reply) ==> (|r| <= |msgs| &&
      (forall i :: 0 <= i < |r| ==> !IsPlaceholder(r[i]) && r[i] in msgs) &&
      (forall i :: 0 <= i < |msgs| && !IsPlaceholder(msgs[i]) ==> msgs[i] in r) &&
      IsFilterOf(r, (m: Message) => !IsPlaceholder(m), msgs))
  {
    if Succeeded(reply) then ReplaceWhere((m: Message) => m.id == tempId, msgs, Confirmed(reply.body))
    else
      FilterOrder((m: Message) => !IsPlaceholder(m), msgs);
      Filter((m: Message) => !IsPlaceholder(m), msgs)
  }

  /** A failed send after a placeholder was appended gives back exactly the earlier list,
      provided that list held no placeholder of its own. */
  lemma {:induction false} FailedSendRestores(prev: seq<Message>, p: Message, tempId: string, reply: Reply<Message>)
    requires forall i :: 0 <= i < |prev| ==> !IsPlaceholder(prev[i])
    requires IsPlaceholder(p) && !Succeeded(reply)
    ensures Settle(prev + [p], tempId, reply) == prev
  {
    var keep := (m: Message) => !IsPlaceholder(m);
    FilterConcat(keep, prev, [p]);
    FilterKeepsAll(keep, prev);
    FilterDropsAll(keep, [p]);
  }

  /** A successful send turns the trailing placeholder into the confirmed message and leaves
      every earlier message where it was. */
  lemma SucceededSendReplacesLast(prev: seq<Message>, p: Message, tempId: string, reply: Reply<Message>)
    requires forall i :: 0 <= i < |prev| ==> prev[i].id != tempId
    requires p.id == tempId && Succeeded(reply)
    ensures Settle(prev + [p], tempId, reply) == prev + [Confirmed(reply.body)]
  {
    var r := Settle(prev + [p], tempId, reply);
    assert forall i :: 0 <= i < |prev| ==> (prev + [p])[i] == prev[i];
    assert forall i :: 0 <= i < |prev| + 1 ==> r[i] == (prev + [Confirmed(reply.body)])[i];
  }

  // ---------------------------------------------------------------- the view

  /** The state of one conversation view; `chatId` is the route parameter it was mounted with. */
  class ChatView {
    const chatId: Option<string>
    var messages: seq<Message>
    var newMessage: string
    var loading: bool
    var error: Option<string>
    var notFound: bool
    var chatName: string
    var isGroup: bool
    var adminId: Option<string>
    var participants: seq<Participant>
    var callPartner: Option<User>
    var chatData: Option<Chat>
    var availableUsers: seq<User>
    var searchQuery: string
    var isRecording: bool
    var recordingTime: nat
    var isEmojiPickerOpen: bool
    var isSending: bool
    var showAttachmentOptions: bool
    var fileInput: Option<LocalFile>
    var imageInput: Option<LocalFile>
    var isInCall: bool
    var isVideoCall: bool
    var callDuration: nat
    var callTimerRunning: bool
    var isMuted: bool
    var isVideoEnabled: bool
    var isFullscreen: bool

    /** The initial state of every `useState` of the view. */
    constructor(chatId: Option<string>)
      ensures this.chatId == chatId && messages == [] && newMessage == "" && loading
      ensures error.None? && !notFound && chatName == "Chat" && !isGroup && adminId.None?
      ensures participants == [] && callPartner.None? && chatData.None? && availableUsers == []
      ensures searchQuery == "" && !isRecording && recordingTime == 0 && !isEmojiPickerOpen
      ensures !isSending && !showAttachmentOptions && fileInput.None? && imageInput.None?
      ensures !isInCall && !isVideoCall && callDuration == 0 && !callTimerRunning
      ensures !isMuted && isVideoEnabled && !isFullscreen
    {
      this.chatId := chatId;
      messages, newMessage, loading, error, notFound := [], "", true, None, false;
      chatName, isGroup, adminId, participants, callPartner, chatData := "Chat", false, None, [], None, None;
      availableUsers, searchQuery := [], "";
      isRecording, recordingTime, isEmojiPickerOpen := false, 0, false;
      isSending, showAttachmentOptions, fileInput, imageInput := false, false, None, None;
      isInCall, isVideoCall, callDuration, callTimerRunning := false, false, 0, false;
      isMuted, isVideoEnabled, isFullscreen := false, true, false;
    }

    function Shown(): ChatShown
      reads this
    {
      ChatShown(chatData, chatName, isGroup, adminId, participants, callPartner, messages)
    }

    /** `updateChatData`, with the current user read from storage (`user_id || ""`). */
    method UpdateChatData(store: Store, data: Chat)
      modifies this`chatData, this`chatName, this`isGroup, this`adminId, this`participants,
               this`callPartner, this`messages
      ensures Shown() == ShowChat(old(Shown()), data, OrElse(store.userId, ""))
    {
      var me := OrElse(store.userId, "");
      chatData := Some(data);
      if data.isGroup {
        chatName := OrElse(data.name, "Group Chat");
        isGroup := true;
        adminId := data.adminId;
      } else {
        var other := OtherParticipant(data.users, me);
        chatName := if other.Some? then OrElse(Some(other.value.user.fullname), "Chat") else "Chat";
        isGroup := false;
        if other.Some? {
          callPartner := Some(other.value.user);
        }
      }
      participants := data.users;
      messages := FormatMessages(data.messages);
    }

    /** `fetchMessages` once its request (if any) has been answered with `reply`. */
    method FetchMessages(store: Store, reply: Reply<Chat>)
      modifies this`loading, this`error, this`notFound, store`selectedChat,
               this`chatData, this`chatName, this`isGroup, this`adminId, this`participants,
               this`callPartner, this`messages
      ensures !loading
      ensures var d := FetchDecision(chatId, old(store.selectedChat), store.cachedChats, store.HasToken(), reply);
        var me := OrElse(store.userId, "");
        (d.NoChat? ==> error == old(error) && notFound == old(notFound) && Shown() == old(Shown()) &&
                       store.selectedChat == old(store.selectedChat)) &&
        (d.Cached? ==> error.None? && !notFound && Shown() == ShowChat(old(Shown()), d.chat, me) &&
                       store.selectedChat == old(store.selectedChat)) &&
        (d.NotFound? ==> error.None? && notFound && Shown() == old(Shown()) &&
                         store.selectedChat == old(store.selectedChat)) &&
        (d.LoadFailed? ==> error == Some(d.message) && !notFound && Shown() == old(Shown()) &&
                           store.selectedChat == old(store.selectedChat)) &&
        (d.Loaded? ==> error.None? && !notFound && Shown() == ShowChat(old(Shown()), d.chat, me) &&
                       store.selectedChat == Some(d.chat))
    {
      ghost var d := FetchDecision(chatId, store.selectedChat, store.cachedChats, store.HasToken(), reply);
      if !HasChatId(chatId) {
        loading := false;
        return;
      }
      loading, error, notFound := true, None, false;
      var id := chatId.value;
      if store.selectedChat.Some? {
        if store.selectedChat.value.id == id {
          assert d == Cached(store.selectedChat.value);
          UpdateChatData(store, store.selectedChat.value);
          loading := false;
          return;
        }
      } else if store.cachedChats.Some? {
        var hit := FindChat(store.cachedChats.value, id);
        if hit.Some? {
          assert d == Cached(hit.value);
          UpdateChatData(store, hit.value);
          loading := false;
          return;
        }
      }
      assert LookupCache(id, store.selectedChat, store.cachedChats).Miss?;
      if !store.HasToken() {
        error := Some(LoadErrorPrefix + NoTokenMessage);
      } else if reply.Failed? {
        error := Some(LoadErrorPrefix + reply.message);
      } else if reply.status == 404 {
        notFound := true;
      } else if !IsOk(reply.status) {
        error := Some(LoadErrorPrefix + LoadErrorPrefix + NatToString(reply.status));
      } else {
        assert d == Loaded(reply.body);
        store.selectedChat := Some(reply.body);
        UpdateChatData(store, reply.body);
      }
      loading := false;
    }

    /** The first half of `handleSendMessage`, up to the request: when the guard lets the send
        through and a token is stored, the placeholder is appended, the composer is cleared and
        its id returned; without a token every placeholder is dropped at once. */
    method StartSend(store: Store, now: nat, objectUrl: string, sizeLabel: string) returns (tempId: Option<string>)
      modifies this`isSending, this`messages, this`newMessage, this`fileInput, this`imageInput,
               this`showAttachmentOptions
      ensures !SendAllowed(old(newMessage), old(fileInput), old(imageInput), chatId, old(isSending)) ==>
        tempId.None? && messages == old(messages) && isSending == old(isSending) &&
        newMessage == old(newMessage) && fileInput == old(fileInput) && imageInput == old(imageInput) &&
        showAttachmentOptions == old(showAttachmentOptions)
      ensures SendAllowed(old(newMessage), old(fileInput), old(imageInput), chatId, old(isSending)) && !store.HasToken() ==>
        tempId.None? && messages == Filter((m: Message) => !IsPlaceholder(m), old(messages)) && !isSending &&
        newMessage == old(newMessage) && fileInput == old(fileInput) && imageInput == old(imageInput) &&
        showAttachmentOptions == old(showAttachmentOptions)
      ensures SendAllowed(old(newMessage), old(fileInput), old(imageInput), chatId, old(isSending)) && store.HasToken() ==>
        tempId == Some(TempId(now)) && isSending &&
        messages == old(messages) + [Placeholder(TempId(now), old(newMessage), now,
                                                 Author(participants, OrElse(store.userId, "current-user-id")),
                                                 old(fileInput), old(imageInput), objectUrl, sizeLabel)] &&
        newMessage == "" && fileInput.None? && imageInput.None? && !showAttachmentOptions
    {
      if !SendAllowed(newMessage, fileInput, imageInput, chatId, isSending) {
        return None;
      }
      isSending := true;
      if !store.HasToken() {
        messages := Filter((m: Message) => !IsPlaceholder(m), messages);
        isSending := false;
        return None;
      }
      var placeholder := Placeholder(TempId(now), newMessage, now, Author(participants, OrElse(store.userId, "current-user-id")),
                                     fileInput, imageInput, objectUrl, sizeLabel);
      var id := TempId(now);
      messages := messages + [placeholder];
      newMessage := "";
      fileInput, imageInput := None, None;
      showAttachmentOptions := false;
      tempId := Some(id);
    }

    /** The second half of `handleSendMessage`: the backend's reply settles the list and the
        send is no longer in flight. */
    method FinishSend(tempId: string, reply: Reply<Message>)
      modifies this`messages, this`isSending
      ensures messages == Settle(old(messages), tempId, reply)
      ensures !isSending
    {
      if Succeeded(reply) {
        messages := ReplaceWhere((m: Message) => m.id == tempId, messages, Confirmed(reply.body));
      } else {
        messages := Filter((m: Message) => !IsPlaceholder(m), messages);
      }
      isSending := false;
    }

    /** `handleAddEmoji`: the emoji goes at the end of the draft and the picker closes. */
    method AddEmoji(emoji: string)
      modifies this`newMessage, this`isEmojiPickerOpen
      ensures newMessage == old(newMessage) + emoji && !isEmojiPickerOpen
    {
      newMessage := newMessage + emoji;
      isEmojiPickerOpen := false;
    }

    /** `handleVoiceRecording`: starting resets the counter; stopping reports the recorded
        duration and resets the counter. */
    method ToggleRecording() returns (duration: Option<string>)
      modifies this`isRecording, this`recordingTime
      ensures isRecording == !old(isRecording) && recordingTime == 0
      ensures old(isRecording) ==> duration == Some("Duration: " + Clock.FormatRecordingTime(old(recordingTime)))
      ensures !old(isRecording) ==> duration.None?
    {
      if isRecording {
        duration := Some("Duration: " + Clock.FormatRecordingTime(recordingTime));
        isRecording := false;
      } else {
        duration := None;
        isRecording := true;
      }
      recordingTime := 0;
    }

    /** One second of the recording interval, which runs only while recording. */
    method RecordingTick()
      modifies this`recordingTime
      ensures recordingTime == old(recordingTime) + if isRecording then 1 else 0
    {
      if isRecording {
        recordingTime := recordingTime + 1;
      }
    }

    /** `loadAvailableUsers` once the user list request has been answered. */
    method LoadAvailableUsers(store: Store, reply: Reply<seq<User>>)
      modifies this`availableUsers
      ensures store.HasToken() && Succeeded(reply) ==> availableUsers == AvailableUsers(reply.body, participants)
      ensures !(store.HasToken() && Succeeded(reply)) ==> availableUsers == old(availableUsers)
    {
      if store.HasToken() && Succeeded(reply) {
        availableUsers := AvailableUsers(reply.body, participants);
      }
    }

    /** `startCall`: refused in a group; otherwise the call starts at zero seconds with its timer. */
    method StartCall(isVideo: bool) returns (started: bool)
      modifies this`isInCall, this`isVideoCall, this`callDuration, this`callTimerRunning
      ensures started <==> !isGroup
      ensures started ==> isInCall && isVideoCall == isVideo && callDuration == 0 && callTimerRunning
      ensures !started ==> isInCall == old(isInCall) && isVideoCall == old(isVideoCall) &&
                           callDuration == old(callDuration) && callTimerRunning == old(callTimerRunning)
    {
      if isGroup {
        return false;
      }
      isInCall, isVideoCall, callDuration := true, isVideo, 0;
      callTimerRunning := true;
      started := true;
    }

    /** One second of the call timer. */
    method CallTick()
      modifies this`callDuration
      ensures callDuration == old(callDuration) + if callTimerRunning then 1 else 0
    {
      if callTimerRunning {
        callDuration := callDuration + 1;
      }
    }

    /** `endCall`: the call and its timer stop, the media flags return to their initial values,
        and the toast reports the elapsed time. The counter itself is not reset. */
    method EndCall() returns (summary: string)
      modifies this`isInCall, this`isVideoCall, this`callTimerRunning, this`isMuted,
               this`isVideoEnabled, this`isFullscreen
      ensures !isInCall && !isVideoCall && !callTimerRunning
      ensures !isMuted && isVideoEnabled && !isFullscreen
      ensures summary == CallSummary(callDuration)
    {
      summary := CallSummary(callDuration);
      isInCall, isVideoCall := false, false;
      callTimerRunning := false;
      isMuted, isVideoEnabled, isFullscreen := false, true, false;
    }

    /** `toggleMute`; the toast title is chosen from the state before the flip. */
    method ToggleMute() returns (title: string)
      modifies this`isMuted
      ensures isMuted == !old(isMuted)
      ensures title == if old(isMuted) then "Microphone enabled" else "Microphone muted"
    {
      title := if isMuted then "Microphone enabled" else "Microphone muted";
      isMuted := !isMuted;
    }

    /** `toggleVideo`; the toast title is chosen from the state before the flip. */
    method ToggleVideo() returns (title: string)
      modifies this`isVideoEnabled
      ensures isVideoEnabled == !old(isVideoEnabled)
      ensures title == if old(isVideoEnabled) then "Camera disabled" else "Camera enabled"
    {
      title := if isVideoEnabled then "Camera disabled" else "Camera enabled";
      isVideoEnabled := !isVideoEnabled;
    }

    method ToggleFullscreen()
      modifies this`isFullscreen
      ensures isFullscreen == !old(isFullscreen)
    {
      isFullscreen := !isFullscreen;
    }
  }

  /** The toast shown when a call ends. */
  function CallSummary(seconds: nat): string
  {
    "Call duration: " + Clock.FormatCallDuration(seconds)
  }

  /** The participant ids of the conversation contain `id`. */
  predicate IsParticipant(participants: seq<Participant>, id: string)
  {
    exists i :: 0 <= i < |participants| && participants[i].userId == id
  }

  /** The users that may be added: those not already in the conversation, in their order. */
  function AvailableUsers(users: seq<User>, participants: seq<Participant>): (r: seq<User>)
    ensures forall i :: 0 <= i < |r| ==> r[i] in users && !IsParticipant(participants, r[i].id)
    ensures forall i :: 0 <= i < |users| && !IsParticipant(participants, users[i].id) ==> users[i] in r
    ensures IsFilterOf(r, (u: User) => !IsParticipant(participants, u.id), users)
  {
    FilterOrder((u: User) => !IsParticipant(participants, u.id), users);
    Filter((u: User) => !IsParticipant(participants, u.id), users)
  }

  /** Adding users to a conversation that already holds all of them offers nobody. */
  lemma AvailableUsersOfMembers(users: seq<User>, participants: seq<Participant>)
    requires forall i :: 0 <= i < |users| ==> IsParticipant(participants, users[i].id)
    ensures AvailableUsers(users, participants) == []
  {
    FilterDropsAll((u: User) => !IsParticipant(participants, u.id), users);
  }
}

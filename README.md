# Chat and habit front-end, modelled in Dafny

This project models the client-side logic of a Next.js/React front-end for habit tracking and
networking. The model covers:

- the conversation view, with its message kinds, the optimistic send, the cache decision when
  loading a chat, calls and recording counters;
- the conversation list, with its demo pin/mute flags, ordering, search and deletion;
- the new-conversation page, with user search, selection, validation, the search for an existing
  direct chat, the payload and the cache update;
- the participant picker and its bound;
- call entries and the elapsed-time strings of the call overlay and the recorder;
- the message composer, the message bubble with its status indicators and edit/delete flow, and
  the image and file bubbles;
- the attachment drop zone;
- the "add habit" form's schema, its defaults, the target parsing and the reminder-day buttons;
- the community feed's list updates and card defaults;
- the messages page, which reads the chat id from the address;
- the sidebar's active-link rule.

Component state becomes a `class` whose fields the handlers reassign, each with a `modifies`
clause and a postcondition naming its whole new state. The pure helpers (formatters,
classifiers, filters and decisions) become functions whose contracts state what they mean.
Lemmas relate the functions to one another: round trips, involutions, idempotence, order,
bounds.

The network, the browser storage and the clock become parameters:

- each awaited `fetch` is a `Reply` value, either a transport failure or a status with a parsed
  body;
- the storage is a `Store` object holding the access token, the user id, name and avatar, and
  the cached chat list and selected chat;
- the current time is a `now` argument.

Modules:

- `Text`: JavaScript string behaviour the components rely on: `trim`, ASCII `toLowerCase`,
  `includes`, `startsWith`, `toString`, `padStart(2, "0")` and `split`.
- `Lists`: `filter` and map-replace on arrays.
- `Entities`: users, participants, messages, chats, replies and the storage object.
- `Clock`: `formatRecordingTime` and `formatCallDuration` of the conversation view and the call
  overlay.
- One module per component: `ChatContainer`, `ChatList`, `NewChat`, `UserSelector`,
  `CallMessage`, `ChatInput`, `ChatMessage`, `FileHandler`, `AddHabit`, `Feed`,
  `MessagesPage`, `Navigation`, `Attachments`.

## Model

| member | source | states |
|---|---|---|
| Text.NatToString | components/networking/chat/call-interface.tsx:48-51 | `toString` of a count is a non-empty run of digits with no leading zero, at least two digits exactly from 10 on |
| Text.ParseNatToString | components/networking/chat/call-interface.tsx:44-51 | reading the decimal digits of a count back gives the count |
| Text.PadStart2 | components/networking/chat/call-interface.tsx:48-51 | `padStart(2, "0")` keeps the text as a suffix and fills at most two places with zeros |
| Text.PadStart2Value | components/networking/chat/call-interface.tsx:48-51 | padding keeps a field's value, makes it at least two digits long and never cuts a longer field |
| Text.Pad2 | components/networking/chat/call-interface.tsx:48-51 | a padded count is at least two digits, reads back as the count, and is unpadded from 10 on |
| Text.ContainsEmpty | components/networking/chat/chat-list.tsx:307-315 | the empty query occurs in every string |
| Text.SplitConcat | components/networking/chat/call-interface.tsx:48-51 | splitting at the first separator yields the part before it, then the fields of the rest |
| Lists.Filter | app/habits/networking/page.tsx:82-84 | `filter` keeps exactly the elements satisfying the predicate, each from the input |
| Lists.Kept | app/habits/networking/page.tsx:82-84 | the kept positions are exactly the positions whose element satisfies the predicate |
| Lists.KeptIncreasing | app/habits/networking/page.tsx:82-84 | the kept positions come in increasing order |
| Lists.FilterOrder | app/habits/networking/page.tsx:82-84 | `filter` returns the satisfying elements in their original order and nothing else (`IsFilterOf`) |
| Lists.FilterConcat | app/habits/networking/page.tsx:82-84 | filtering distributes over concatenation, so the survivors keep their relative order |
| Lists.FilterKeepsAll | app/habits/networking/page.tsx:82-84 | a filter that rejects nothing returns its input |
| Lists.ReplaceWhere | app/habits/networking/page.tsx:76-80 | map-replace keeps the length and replaces exactly the matching positions |
| Lists.ReplaceWhereNone | app/habits/networking/page.tsx:76-80 | replacing where nothing matches changes nothing |
| Entities.SearchByName | components/networking/chat/user-selector.tsx:100 | the visible users are exactly those whose lower-cased name contains the lower-cased query, in their original order |
| Entities.SearchEmptyKeepsAll | components/networking/chat/user-selector.tsx:100 | an empty search shows every user, in order |
| Entities.Without | components/networking/chat/user-selector.tsx:90-92 | removing a user drops every entry with that id and keeps every other entry, in their original order |
| Entities.OrElse | app/habits/networking/messages/page.tsx:26-27 | `x \|\| fallback`: a missing or empty value falls back, any other value is kept |
| Entities.FindChat | components/networking/chat/chat-list.tsx:158-175 | `find` returns the first chat with the id, and nothing exactly when no chat has it |
| Entities.OtherParticipant | components/networking/chat/chat-list.tsx:182-190 | `find` returns the first participant who is not the current user (at the first such position), and nothing exactly when all are |
| Clock.CallDurationChars | components/networking/chat/call-interface.tsx:43-52 | a call duration is written with digits and colons only |
| Clock.RecordingTimeFields | components/networking/chat/chat-container.tsx:492-496 | the recording time splits into two well-formed fields that read back as `m*60 + s` with `s < 60` |
| Clock.CallDurationFields | components/networking/chat/call-interface.tsx:43-52 | a call duration has three fields exactly from 3600 seconds on and two before; every field has at least two digits; minutes and seconds are below 60; the fields read back as the input |
| Clock.CallDurationHours | components/networking/chat/call-interface.tsx:44-49 | from one hour on, the first field reads as the whole hours, never truncated |
| Clock.HoursMinutesSeconds | components/networking/chat/chat-container.tsx:684-694 | the hours, minutes and seconds fields recompose the input, with minutes and seconds below 60 and hours positive exactly from 3600 on |
| ChatContainer.ImagePattern | components/networking/chat/chat-container.tsx:305-312 | the image regular expression, alternative by alternative, is a case-insensitive dot-extension suffix test |
| ChatContainer.VoicePattern | components/networking/chat/chat-container.tsx:305-312 | likewise for the voice regular expression |
| ChatContainer.MessageType | components/networking/chat/chat-container.tsx:305-312 | no file URL is text; otherwise image wins over voice, and anything else is a file; each kind is characterised both ways |
| ChatContainer.FormatMessages | components/networking/chat/chat-container.tsx:259-290 | every loaded message is tagged with its kind and nothing else changes |
| ChatContainer.LookupCache | components/networking/chat/chat-container.tsx:173-199 | a selected chat with the right id is a hit; a selected chat with another id is a miss even when the cache holds the id; the cached list is consulted only when nothing is selected |
| ChatContainer.FetchDecision | components/networking/chat/chat-container.tsx:156-256 | no route id ends the load; a cache hit shows the cached chat; on a miss a 404 is not-found, another error status, a failure or a missing token is an error with the load prefix, and success shows the body |
| ChatContainer.ChatTitle | components/networking/chat/chat-container.tsx:259-290 | the title is the group's name or "Group Chat", or the name of the first participant who is not the current user (`find`), or "Chat" when that name is empty or nobody else takes part; it is never empty |
| ChatContainer.ShowChat | components/networking/chat/chat-container.tsx:259-290 | `updateChatData` shows the chat, its participants and its tagged messages; a direct chat keeps the previous admin id and takes the first other participant as call partner, keeping the previous partner when there is none |
| ChatContainer.TempId | components/networking/chat/chat-container.tsx:338 | the placeholder id starts with "temp-" |
| ChatContainer.Author | components/networking/chat/chat-container.tsx:357-383 | the placeholder's author is the current user's first participant entry (`find`), or a stand-in named "You" |
| ChatContainer.Placeholder | components/networking/chat/chat-container.tsx:357-383 | the placeholder has the temporary id, the text and time; an audio file makes a voice note, another file a file message, an image an image message, and no attachment a text message |
| ChatContainer.Confirmed | components/networking/chat/chat-container.tsx:419-428 | the server's message is kept except for its kind, which is recomputed from its URL |
| ChatContainer.Settle | components/networking/chat/chat-container.tsx:419-438 | on success only the entry with the temporary id is replaced and the length is kept; on failure exactly the "temp-" entries are removed and the rest keep their original order (`IsFilterOf`) |
| ChatContainer.FailedSendRestores | components/networking/chat/chat-container.tsx:338-438 | a failed send after one placeholder was appended gives back exactly the earlier list |
| ChatContainer.SucceededSendReplacesLast | components/networking/chat/chat-container.tsx:338-428 | a successful send turns the trailing placeholder into the confirmed message and leaves the rest as they were |
| ChatContainer.AvailableUsers | components/networking/chat/chat-container.tsx:506-529 | the users offered are exactly those not already participants, in their original order |
| ChatContainer.AvailableUsersOfMembers | components/networking/chat/chat-container.tsx:506-529 | when every user is already a participant, nobody is offered |
| ChatContainer.ChatView.constructor | components/networking/chat/chat-container.tsx:109-144 | the initial value of every piece of view state |
| ChatContainer.ChatView.UpdateChatData | components/networking/chat/chat-container.tsx:259-290 | the view's state becomes `ShowChat` of the previous state, with the stored user id or "" |
| ChatContainer.ChatView.FetchMessages | components/networking/chat/chat-container.tsx:156-256 | loading ends; the state follows `FetchDecision`: the chat is shown, or `notFound` or `error` is set, the other flag staying clear |
| ChatContainer.ChatView.StartSend | components/networking/chat/chat-container.tsx:315-383 | a refused send changes nothing; a send without a token drops every "temp-" placeholder, ends the send and keeps the composer as it was; otherwise one placeholder is appended, the composer is cleared and the send is in flight |
| ChatContainer.ChatView.FinishSend | components/networking/chat/chat-container.tsx:384-442 | the list becomes `Settle` of the old list and the send is no longer in flight |
| ChatContainer.ChatView.AddEmoji | components/networking/chat/chat-container.tsx:444-447 | the emoji is appended to the draft and the picker closes |
| ChatContainer.ChatView.ToggleRecording | components/networking/chat/chat-container.tsx:450-489 | recording flips and the counter resets; stopping reports "Duration: " and the formatted time |
| ChatContainer.ChatView.RecordingTick | components/networking/chat/chat-container.tsx:478-480 | the counter advances by one only while recording |
| ChatContainer.ChatView.LoadAvailableUsers | components/networking/chat/chat-container.tsx:506-529 | a successful answer replaces the offered users by `AvailableUsers`; anything else leaves them |
| ChatContainer.ChatView.StartCall | components/networking/chat/chat-container.tsx:598-632 | refused in a group; otherwise the call starts at zero seconds with its timer running and the requested kind |
| ChatContainer.ChatView.CallTick | components/networking/chat/chat-container.tsx:613-616 | the call counter advances by one while its timer runs |
| ChatContainer.ChatView.EndCall | components/networking/chat/chat-container.tsx:634-659 | the call and its timer stop, mute, video and fullscreen return to their initial values, and the summary states the duration |
| ChatContainer.ChatView.ToggleMute | components/networking/chat/chat-container.tsx:661-667 | mute flips, and the toast title is chosen from the state before the flip |
| ChatContainer.ChatView.ToggleVideo | components/networking/chat/chat-container.tsx:669-675 | video flips, and the toast title is chosen from the state before the flip |
| ChatContainer.ChatView.ToggleFullscreen | components/networking/chat/chat-container.tsx:677-682 | fullscreen flips |
| ChatList.Enhance | components/networking/chat/chat-list.tsx:117-121 | after loading, only index 0 is pinned and only index 2 is muted; nothing else changes |
| ChatList.SortChats | components/networking/chat/chat-list.tsx:124-131 | the ordered list is a permutation of the input, pinned before unpinned, newest first within each group, and no entry precedes an earlier one by the comparator |
| ChatList.Insert | components/networking/chat/chat-list.tsx:124-131 | inserting into a sorted list keeps it sorted and adds exactly the one chat |
| ChatList.LoadedListOrder | components/networking/chat/chat-list.tsx:117-131 | after a load the first chat the backend sent heads the list and is the only pinned one |
| ChatList.FlipPin | components/networking/chat/chat-list.tsx:276-288 | only the matching chats have `isPinned` flipped, nothing else changes |
| ChatList.FlipMute | components/networking/chat/chat-list.tsx:297-298 | only the matching chats have `isMuted` flipped, nothing else changes |
| ChatList.FlipMuteTwice | components/networking/chat/chat-list.tsx:297-298 | muting twice gives the list back |
| ChatList.ChatName | components/networking/chat/chat-list.tsx:182-190 | the group's name or "Group Chat"; in a direct chat the name of the first participant who is not the current user (`find`), or "Unknown User" when that name is empty or nobody else takes part; never empty |
| ChatList.LastMessage | components/networking/chat/chat-list.tsx:204-218 | the preview is `messages[0]`, or "No messages yet" with the chat's creation time |
| ChatList.FilteredChats | components/networking/chat/chat-list.tsx:307-315 | the chats whose lower-cased name or preview contains the lower-cased query, in their original list order |
| ChatList.FilterEmptyQuery | components/networking/chat/chat-list.tsx:307-315 | an empty search shows the whole list |
| ChatList.ChatListView.constructor | components/networking/chat/chat-list.tsx:71-76 | the list starts empty and loading, with no error and no dialog |
| ChatList.ChatListView.LoadChats | components/networking/chat/chat-list.tsx:83-150 | success shows and caches `SortChats(Enhance(data))`; a failure or a missing token sets the error and keeps the list; loading ends |
| ChatList.ChatListView.ChatClick | components/networking/chat/chat-list.tsx:158-175 | a found chat is stored as the selection; without a handler the browser goes to the chat's address |
| ChatList.ChatListView.TogglePin | components/networking/chat/chat-list.tsx:276-288 | the list becomes the flipped list, re-ordered: a sorted permutation of it |
| ChatList.ChatListView.ToggleMute | components/networking/chat/chat-list.tsx:297-298 | the list becomes the flipped list, with no reordering |
| ChatList.ChatListView.DeleteChat | components/networking/chat/chat-list.tsx:221-273 | without a chat to delete nothing happens; success removes every chat with that id from the list and the cache and leaves for the list page when that chat was open; the dialog closes either way |
| NewChat.FilteredUsers | app/habits/networking/messages/new/page.tsx:86-90 | the users whose name, or e-mail when present, contains the query ignoring case, in their original order |
| NewChat.Toggle | app/habits/networking/messages/new/page.tsx:93-99 | a selected user leaves, any other joins at the end; the user is selected afterwards exactly when not selected before |
| NewChat.ToggleTwice | app/habits/networking/messages/new/page.tsx:93-99 | toggling an unselected user twice restores the selection |
| NewChat.Validate | app/habits/networking/messages/new/page.tsx:108-124 | creation is refused, with its message, exactly when nobody is selected or a group has a blank name |
| NewChat.BuildPayload | app/habits/networking/messages/new/page.tsx:204-208 | the payload holds the selected ids in order, the group flag, and the name only for a group |
| NewChat.ExistingChat | app/habits/networking/messages/new/page.tsx:138-157 | the first cached direct chat of two that includes the user, and nothing exactly when there is none |
| NewChat.FindExistingChat | app/habits/networking/messages/new/page.tsx:138-157 | the loop with `break` finds the id of `ExistingChat` |
| NewChat.KnownDirectChat | app/habits/networking/messages/new/page.tsx:135-190 | a redirect happens only for a direct chat with one user, and exactly when the cache or a positive existence check has an id; a cached chat wins, otherwise the id is the check's |
| NewChat.CreateDecision | app/habits/networking/messages/new/page.tsx:107-262 | refused exactly on a validation failure; created only with a token and a successful creation reply; a known direct chat, or else a 409 reply with an id, redirects to that id; failure exactly without a token, or with no known chat, no success and no usable 409 |
| NewChat.CacheAfterCreate | app/habits/networking/messages/new/page.tsx:251-256 | the new chat goes to the head of the cached list, and only when a cache exists |
| NewChat.NewChatPage.constructor | app/habits/networking/messages/new/page.tsx:26-33 | the initial state of the page |
| NewChat.NewChatPage.FetchUsers | app/habits/networking/messages/new/page.tsx:38-80 | success lists every user but the current one, in the backend's order; a failure sets the error and keeps the list |
| NewChat.NewChatPage.ToggleUserSelection | app/habits/networking/messages/new/page.tsx:93-99 | the selection becomes `Toggle` of the old one |
| NewChat.NewChatPage.RemoveUser | app/habits/networking/messages/new/page.tsx:102-104 | the selection loses every entry with the id |
| NewChat.NewChatPage.CreateChat | app/habits/networking/messages/new/page.tsx:107-262 | the outcome is `CreateDecision`; a payload is built only past validation, and is `BuildPayload`; creation updates the cache; the submitting flag ends clear unless the form was refused |
| UserSelector.SelectUser | components/networking/chat/user-selector.tsx:72-88 | at the bound a new user is refused; a selected user is always removed; otherwise the user is appended; a selection within the bound stays within it |
| UserSelector.SelectionStaysBounded | components/networking/chat/user-selector.tsx:72-92 | whatever users are clicked, a selection that starts within the bound stays within it |
| UserSelector.UserSelectorView.constructor | components/networking/chat/user-selector.tsx:24-28 | `maxUsers` defaults to ten, and everything starts empty |
| UserSelector.UserSelectorView.FetchUsers | components/networking/chat/user-selector.tsx:31-67 | success lists every user but the current one; the current user never appears; a failure keeps the list |
| UserSelector.UserSelectorView.HandleSelectUser | components/networking/chat/user-selector.tsx:72-88 | the selection becomes `SelectUser` of the old one, the refusal is reported, and the bound is kept |
| UserSelector.UserSelectorView.RemoveUser | components/networking/chat/user-selector.tsx:90-92 | removal drops the id and keeps the bound |
| CallMessage.FormatDuration | components/networking/chat/call-message.tsx:30-42 | empty exactly for zero seconds, otherwise the call-overlay format |
| CallMessage.Icon | components/networking/chat/call-message.tsx:44-60 | the phone family exactly for audio calls, the crossed-out variant exactly for ended, rejected and missed calls |
| CallMessage.EndedText | components/networking/chat/call-message.tsx:70-72 | the ended sentence, with a bullet and the duration only when the duration is positive |
| CallMessage.EndedBulletIffDuration | components/networking/chat/call-message.tsx:70-72 | the ended sentence shows a bullet exactly when it shows a duration |
| CallMessage.AsWrittenHasNoBullet | components/networking/chat/call-message.tsx:71 | with the separator as the file stores it, no ended sentence shows a bullet and every one with a duration shows a euro sign |
| CallMessage.Subject | components/networking/chat/call-message.tsx:73-80 | missed and rejected calls swap perspective with `isFromMe` relative to started calls; a missing name reads "User" |
| CallMessage.CallText | components/networking/chat/call-message.tsx:62-84 | non-ended sentences start with their subject; the ended sentence is `EndedText` (the full sentences are the three perspective lemmas) |
| CallMessage.MissedPerspective | components/networking/chat/call-message.tsx:73-76 | a missed call reads "X missed your … call" on my side and "You missed a … call" on the other side |
| CallMessage.StartedPerspective | components/networking/chat/call-message.tsx:66-69 | a started call reads "You started a … call" on my side and "X started a … call" on the other side, X defaulting to "User" |
| CallMessage.RejectedPerspective | components/networking/chat/call-message.tsx:77-80 | a declined call reads "X declined your … call" on my side and "You declined a … call" on the other side |
| CallMessage.AlertMarksUnanswered | components/networking/chat/call-message.tsx:91-99 | the red styling is on exactly the missed and rejected calls: crossed-out icon but not ended; their sentence is about the side that did not answer |
| ChatInput.RecordingTimeFields | components/networking/chat/chat-input.tsx:139-143 | the composer's recording time splits into unpadded minutes and two-digit seconds that recompose the input |
| ChatInput.RecordingTimeFormatsAgree | components/networking/chat/chat-input.tsx:139-143 | the composer's and the conversation view's recording times are the same string exactly from ten minutes on |
| ChatInput.ChatInputView.constructor | components/networking/chat/chat-input.tsx:34-38 | the composer starts empty |
| ChatInput.ChatInputView.Send | components/networking/chat/chat-input.tsx:71-81 | sends exactly when the text is not blank or a file is selected; the untrimmed text goes out as "TEXT"; the composer is cleared and the handler hidden; the reply is cancelled exactly when a message went out and the parent passed `onCancelReply` |
| ChatInput.ChatInputView.KeyDown | components/networking/chat/chat-input.tsx:83-88 | Enter without Shift does exactly what `Send` does (same message, same cleared state, same reply cancelling); every other key changes nothing |
| ChatInput.ChatInputView.EmojiSelect | components/networking/chat/chat-input.tsx:90-92 | the emoji is appended to the draft |
| ChatInput.ChatInputView.FileSelect | components/networking/chat/chat-input.tsx:94-96 | the chosen file is selected |
| ChatMessage.StatusOrDefault | components/networking/chat/chat-message.tsx:41 | the status defaults to SENT |
| ChatMessage.StatusIndicator | components/networking/chat/chat-message.tsx:164-181 | no indicator on others' messages or for EDITED, one for every other status on mine |
| ChatMessage.IndicatorsDistinct | components/networking/chat/chat-message.tsx:164-181 | two statuses never share an indicator |
| ChatMessage.ChatMessageView.constructor | components/networking/chat/chat-message.tsx:41-48 | the bubble starts out of edit mode with the draft equal to the text |
| ChatMessage.ChatMessageView.StartEdit | components/networking/chat/chat-message.tsx:268-272 | the edit menu item enters edit mode |
| ChatMessage.ChatMessageView.CancelEdit | components/networking/chat/chat-message.tsx:231-234 | cancel leaves edit mode and restores the draft |
| ChatMessage.ChatMessageView.HandleEdit | components/networking/chat/chat-message.tsx:53-94 | a request is made exactly for a changed, non-blank draft with a token; a blank or unchanged draft exits and restores; a failure restores the original text; while no delete is in progress, a request is made exactly when Save is enabled and a token is stored |
| ChatMessage.SaveDisabledCases | components/networking/chat/chat-message.tsx:242 | Save is disabled on the untouched draft and during a delete; when enabled, the draft has a visible character and differs from the original |
| ChatMessage.ChatMessageView.HandleDelete | components/networking/chat/chat-message.tsx:97-137 | success hides the message for either scope, failure keeps it, and deleting ends |
| ChatMessage.ChatMessageView.MarkAsRead | components/networking/chat/chat-message.tsx:140-157 | the receipt is posted exactly for someone else's unseen message, with a token |
| FileHandler.Icon | components/networking/chat/file-handler.tsx:45-53 | a paperclip exactly when nothing is selected; otherwise the image, video or audio icon exactly for its MIME prefix, a document for anything else |
| FileHandler.PrefixesExclusive | components/networking/chat/file-handler.tsx:45-53 | no MIME type carries two of the prefixes, so the order of the tests never matters |
| FileHandler.DragState | components/networking/chat/file-handler.tsx:20-28 | enter and over turn the highlight on, leave turns it off, any other event keeps it |
| FileHandler.LastMove | components/networking/chat/file-handler.tsx:20-28 | the last event of a run that moves the highlight (no later event moves it), and nothing exactly when none does |
| FileHandler.DragAfterLastMove | components/networking/chat/file-handler.tsx:20-28 | after any run of drag events the highlight is decided by the last event that moves it |
| FileHandler.FirstFile | components/networking/chat/file-handler.tsx:30-43 | the first file, and nothing exactly for an empty list |
| FileHandler.FileHandlerView.constructor | components/networking/chat/file-handler.tsx:18 | the highlight starts off |
| FileHandler.FileHandlerView.HandleDrag | components/networking/chat/file-handler.tsx:20-28 | the highlight becomes `DragState` of the old one |
| FileHandler.FileHandlerView.HandleDrop | components/networking/chat/file-handler.tsx:30-37 | the highlight goes off, and the first dropped file, if any, is handed over |
| FileHandler.FileHandlerView.HandleFileChange | components/networking/chat/file-handler.tsx:39-43 | the first chosen file, if any, is handed over |
| AddHabit.Failing | components/habits/add-habit-dialog.tsx:16-27 | the listed keys whose check fails, and only those |
| AddHabit.Issues | components/habits/add-habit-dialog.tsx:16-27 | the schema reports exactly the keys whose constraint fails: name of at least 2, the three enumerations, a target of at least 1, a reminder flag; nothing is reported exactly for a valid form |
| AddHabit.Defaults | components/habits/add-habit-dialog.tsx:57-66 | the defaults are type "good", category "business", frequency "daily", target 1, reminder off, and no name, description, unit, time or days |
| AddHabit.UntouchedFormRejected | components/habits/add-habit-dialog.tsx:57-66 | the untouched form is rejected for its name alone |
| AddHabit.NamedDefaultsValid | components/habits/add-habit-dialog.tsx:17-24 | naming the untouched form makes it valid exactly when the name has at least two characters |
| AddHabit.LeadingDigits | components/habits/add-habit-dialog.tsx:178 | the longest leading run of digits |
| AddHabit.TrimStart | components/habits/add-habit-dialog.tsx:178 | the result is a suffix of the text and does not start with white space |
| AddHabit.TrimStartStripsBlank | components/habits/add-habit-dialog.tsx:178 | the result is a suffix of the text and everything cut off before it is white space |
| AddHabit.ParseInt | components/habits/add-habit-dialog.tsx:178 | `parseInt` yields a number only when the text holds a digit |
| AddHabit.ParseSigned | components/habits/add-habit-dialog.tsx:178 | after trimming, `parseInt` reads a sign and digits, and yields a number only when the text holds a digit |
| AddHabit.ParseIntOfNat | components/habits/add-habit-dialog.tsx:178 | typing a whole number gives it back, and a decimal part is cut off |
| AddHabit.ParseIntNegative | components/habits/add-habit-dialog.tsx:178 | typing a minus sign and a whole number gives the negative number |
| AddHabit.NonPositiveTargetRejected | components/habits/add-habit-dialog.tsx:21 | a typed target of 0 or a negative number makes the form invalid |
| AddHabit.ClearedTargetRejected | components/habits/add-habit-dialog.tsx:178 | a cleared target input is NaN, which the schema rejects |
| AddHabit.ToggleDay | components/habits/add-habit-dialog.tsx:252-255 | a selected day is removed, an unselected day added; every other day keeps its membership; an unset list counts as empty |
| AddHabit.ToggleDayTwiceAbsent | components/habits/add-habit-dialog.tsx:252-255 | pressing an unselected day twice gives the list back |
| AddHabit.ToggleDayTwicePresent | components/habits/add-habit-dialog.tsx:252-255 | pressing a selected day twice keeps the others in order and moves the day to the end |
| Feed.WithCreated | app/habits/networking/page.tsx:72-74 | the new post goes first, followed by the old list |
| Feed.WithUpdated | app/habits/networking/page.tsx:76-80 | every post with the id is replaced in place; length and order are kept |
| Feed.WithDeleted | app/habits/networking/page.tsx:82-84 | every post with the id is removed and every other post stays, in its original order |
| Feed.UpdateAbsentIsNoOp | app/habits/networking/page.tsx:76-80 | updating a post the feed does not hold changes nothing |
| Feed.DeleteAfterUpdate | app/habits/networking/page.tsx:76-84 | deleting after updating is deleting alone |
| Feed.DeleteAfterCreate | app/habits/networking/page.tsx:72-84 | deleting a post just created gives what deleting from the old list gives |
| Feed.UpdateIdempotent | app/habits/networking/page.tsx:76-80 | updating twice is updating once |
| Feed.DeleteIdempotent | app/habits/networking/page.tsx:82-84 | deleting twice is deleting once |
| Feed.CountOrZero | app/habits/networking/page.tsx:135-137 | a missing count reads as 0 |
| Feed.CardOf | app/habits/networking/page.tsx:128-138 | the card's author id, name and photo are never empty; a missing author is "default-id", "Unknown User" and the default avatar; a present author's own id, name and photo are shown unless empty; missing content is "", each count is the post's own or 0, a missing date is now |
| Feed.FeedPage.constructor | app/habits/networking/page.tsx:30-31 | the feed starts empty and loading |
| Feed.FeedPage.LoadPosts | app/habits/networking/page.tsx:34-67 | success replaces the posts; a failure or missing token keeps them; loading always ends |
| Feed.FeedPage.PostCreated | app/habits/networking/page.tsx:72-74 | the posts become `WithCreated` of the old ones |
| Feed.FeedPage.PostUpdated | app/habits/networking/page.tsx:76-80 | the posts become `WithUpdated` of the old ones |
| Feed.FeedPage.PostDeleted | app/habits/networking/page.tsx:82-84 | the posts become `WithDeleted` of the old ones |
| MessagesPage.ChatRoute | app/habits/networking/messages/page.tsx:49 | a chat's address is the messages path followed by its id |
| MessagesPage.LineRun | app/habits/networking/messages/page.tsx:37 | a greedy `(.+)` takes the longest run without a line terminator |
| MessagesPage.MatchFrom | app/habits/networking/messages/page.tsx:37 | the search finds the leftmost match, and nothing exactly when no position matches |
| MessagesPage.ExtractChatId | app/habits/networking/messages/page.tsx:36-41 | an id is read exactly when the path holds the messages path followed by a character; it is the rest of the line after the leftmost match |
| MessagesPage.ExtractChatRoute | app/habits/networking/messages/page.tsx:37-49 | reading back a chat's address gives its id |
| MessagesPage.NewChatRouteReadsAsId | app/habits/networking/messages/page.tsx:37-53 | the new-conversation address reads as a chat named "new" |
| MessagesPage.NoIdOnListPage | app/habits/networking/messages/page.tsx:36-41 | the list page's own address and the bare messages path select nothing |
| MessagesPage.MessagesPageView.constructor | app/habits/networking/messages/page.tsx:15-21 | nothing is selected, the mobile list shows and no user is known |
| MessagesPage.MessagesPageView.Mount | app/habits/networking/messages/page.tsx:23-42 | the header shows the stored user with "User" and the placeholder avatar as defaults; a chat id in the address selects it and hides the mobile list; otherwise both stay |
| MessagesPage.MessagesPageView.ChatSelect | app/habits/networking/messages/page.tsx:44-50 | the chat is selected, the list hidden, and the browser goes to its address |
| MessagesPage.MessagesPageView.ToggleMobileView | app/habits/networking/messages/page.tsx:56-58 | the mobile list flips |
| MessagesPage.MessagesPageView.Back | app/habits/networking/messages/page.tsx:131 | the back button shows the mobile list |
| Navigation.ActiveIsPrefix | components/navigation.tsx:59-63 | a link is highlighted exactly when the path starts with its target; `aria-current` implies highlighting |
| Navigation.ActiveNames | components/navigation.tsx:55-63 | the highlighted links are exactly those whose target the path starts with |
| Navigation.ChallengesPathActivity | components/navigation.tsx:11-18 | on the challenges page, which of the six links are highlighted |
| Navigation.ChallengesPathHighlightsTwo | components/navigation.tsx:16-17 | the challenges page highlights both Community and Challenges, and only Challenges is the current page |
| Navigation.HabitsPrefixHighlights | components/navigation.tsx:59 | a path that merely extends "/habits" highlights it without being its page |
| Navigation.NavigationView.constructor | components/navigation.tsx:26 | the sidebar starts expanded |
| Navigation.NavigationView.ToggleLabel | components/navigation.tsx:46 | the button reads "Expand sidebar" exactly while collapsed |
| Navigation.NavigationView.ToggleCollapse | components/navigation.tsx:38-47 | collapsing flips, and with it whether the labels show |
| Attachments.BaseText | components/networking/chat/image-message.tsx:107 | an unset backend URL prints as "undefined" in the template |
| Attachments.ResolveUrl | components/networking/chat/image-message.tsx:107 | a URL starting with "http" is kept; any other is the base followed by it |
| Attachments.ResolveUrlIdempotent | components/networking/chat/file-message.tsx:45 | with an absolute base, resolving again changes nothing |
| Attachments.HttpNamedPathKept | components/networking/chat/image-message.tsx:34 | a relative path beginning with "http" is taken as absolute |
| Attachments.DeletedAfter | components/networking/chat/file-message.tsx:53-93 | a message is hidden after a delete exactly when it was hidden or the request succeeded with a token |
| Attachments.ImageMessageView.constructor | components/networking/chat/image-message.tsx:27-29 | the image starts shown, not deleting, with the full view closed |
| Attachments.ImageMessageView.Body | components/networking/chat/image-message.tsx:82-131 | the deletion note exactly once deleted; otherwise the resolved URL or the placeholder, never empty |
| Attachments.ImageMessageView.Download | components/networking/chat/image-message.tsx:32-39 | the link targets the resolved URL and is named "image-", the time, ".jpg" |
| Attachments.ImageMessageView.OpenFullImage | components/networking/chat/image-message.tsx:131 | clicking the picture opens the full view |
| Attachments.ImageMessageView.FullImageOpenChange | components/networking/chat/image-message.tsx:194 | the dialog reports its state back |
| Attachments.ImageMessageView.HandleDelete | components/networking/chat/image-message.tsx:41-80 | the image is hidden as `DeletedAfter` says, for either scope, and deleting ends |
| Attachments.FileMessageView.constructor | components/networking/chat/file-message.tsx:37-38 | the file starts shown and not deleting |
| Attachments.FileMessageView.Body | components/networking/chat/file-message.tsx:119-133 | the deletion note exactly once deleted, otherwise the file's name and size |
| Attachments.FileMessageView.Download | components/networking/chat/file-message.tsx:42-50 | the link targets the resolved URL and is named after the file |
| Attachments.FileMessageView.HandleDelete | components/networking/chat/file-message.tsx:53-93 | the file is hidden as `DeletedAfter` says, for either scope, and deleting ends |
| Attachments.FileMessageView.MarkAsRead | components/networking/chat/file-message.tsx:96-111 | the receipt is posted exactly for someone else's message, with a token |

## Left out

- Network, storage and navigation are parameters, not effects. `fetch` calls are `Reply`
  values, the bearer token is the `Store`'s, and router navigation is a returned address. The
  model does not capture request bodies, headers or the order of concurrent requests.
- `JSON.parse` failures on cached storage and non-array bodies (`Array.isArray`) are not
  modelled: the cached lists and replies are typed values.
- Timers and randomness are left out: the recording and call intervals (one tick is a method),
  the simulated incoming call (`setTimeout` with `Math.random`), its accept and reject
  handlers, and the random unread badge.
- `formatFileSize`, with its floating-point `toFixed`, is left out. The size label is a
  parameter of `ChatContainer.ChatView.StartSend`.
- `URL.createObjectURL` is left out; the object URL is a parameter. MediaRecorder and
  getUserMedia in the composer are left out, as are video playback and the DOM download link
  (the download methods return its target and name).
- Dates are integers, and the current time is a parameter. `formatDistanceToNow` and
  `toLocaleTimeString` are left out.
- `handleAddParticipants` in the conversation view is not part of this model: it is a network
  round trip with no local logic beyond reloading the chat.
- The toast texts, except the ones a method returns, and all JSX, animation, scrolling,
  dialogs and category icons and colours are left out.
- The form's `onSubmit` and the selected category are left out: they only call the parent and
  close the dialog.
- `Text.Lower`: `toLowerCase` is modelled on ASCII letters only; other letters are kept as
  they are.
- `AddHabit.FieldOk`: zod's `min(2)` counts UTF-16 code units, while the model counts
  characters. The zod error messages are not modelled.
- `AddHabit.ParseInt`: JavaScript's `parseInt` accepts a "0x" prefix as hexadecimal. The model
  does not, because a number input never yields one.
- `ChatList.SortChats`: the comparator's order is proved, but not the stability of
  `Array.prototype.sort` on ties.
- `NewChat.CreateDecision`: a 409 reply without a chat id ends as a failure, as on the page,
  where reading the already-read body a second time rejects into the same error path. The
  toast and console output of that path are not modelled.
- `Entities.OrElse`: a stored empty string reads the same as a missing value, as `||` treats
  it.
- `ChatContainer.ChatView.constructor`: an error passed in by the parent (`propError`) is not
  modelled; the error starts clear.
- `voice-message.tsx`, the authentication forms, the static dashboard pages and the mock data
  are outside the modelled core.

## Findings

| source | as written | input that shows it | evidently intended | confidence | as-written member | corrected member |
|---|---|---|---|---|---|---|
| components/networking/chat/call-message.tsx:71 | the separator before the duration is stored as the three characters "â€¢", the UTF-8 bytes of a bullet decoded as Windows-1252 | an ended audio call of 5 seconds renders "Audio call ended â€¢ 00:05", with no bullet | a bullet between two spaces, " • ", as the call overlay writes it (call-interface.tsx:66) | not executed | CallMessage.AsWrittenHasNoBullet | CallMessage.EndedBulletIffDuration |

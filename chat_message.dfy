/** One message bubble (`components/networking/chat/chat-message.tsx`): its delivery status
    indicator, the edit guard and outcome, the read receipt guard and the delete outcome. */
module ChatMessage {
  import opened Text
  import opened Entities

  datatype MessageStatus = SENDING | SENT | DELIVERED | SEEN | FAILED | EDITED

  /** The `status` property when the caller leaves it out. */
  function StatusOrDefault(status: Option<MessageStatus>): (r: MessageStatus)
    ensures status.None? ==> r == SENT
    ensures status.Some? ==> r == status.value
  {
    status.GetOr(SENT)
  }

  /** The indicator icons: a clock, one check, two grey checks, two blue checks, a red cross. */
  datatype Indicator = Pending | SingleCheck | DoubleCheck | DoubleCheckSeen | FailedCross

  /** `renderMessageStatus`: nothing on other people's messages; on mine, one indicator per
      delivery status, and none for an edited message. */
  function StatusIndicator(isFromMe: bool, status: MessageStatus): (r: Option<Indicator>)
    ensures r.None? <==> !isFromMe || status == EDITED
  {
    if !isFromMe then None
    else match status
      case SENDING => Some(Pending)
      case SENT => Some(SingleCheck)
      case DELIVERED => Some(DoubleCheck)
      case SEEN => Some(DoubleCheckSeen)
      case FAILED => Some(FailedCross)
      case EDITED => None
  }

  /** On my messages, two statuses that show an indicator never show the same one. */
  lemma IndicatorsDistinct(s1: MessageStatus, s2: MessageStatus)
    requires StatusIndicator(true, s1).Some? && StatusIndicator(true, s1) == StatusIndicator(true, s2)
    ensures s1 == s2
  {
  }

  /** The read receipt is requested only for someone else's message not yet seen. */
  predicate NeedsReadReceipt(isFromMe: bool, status: MessageStatus)
  {
    !isFromMe && status != SEEN
  }

  /** The Save button is disabled while deleting, and for a blank or unchanged text. */
  predicate SaveDisabled(isDeleting: bool, editContent: string, original: string)
  {
    isDeleting || IsBlank(editContent) || editContent == original
  }

  /** Save can never be pressed on the untouched draft, nor during a delete; when it can be
      pressed the draft holds some visible character and differs from the original. */
  lemma SaveDisabledCases(isDeleting: bool, editContent: string, original: string)
    ensures SaveDisabled(isDeleting, original, original)
    ensures SaveDisabled(true, editContent, original)
    ensures !SaveDisabled(isDeleting, editContent, original) ==>
      !isDeleting && editContent != original && exists i :: 0 <= i < |editContent| && !IsWhiteSpace(editContent[i])
  {
  }

  /** The state of one bubble; `message` is the text it was rendered with. */
  class ChatMessageView {
    const message: string
    const isFromMe: bool
    const status: MessageStatus
    var isEditing: bool
    var editContent: string
    var isDeleting: bool
    var isDeleted: bool

    constructor(message: string, isFromMe: bool, status: Option<MessageStatus>)
      ensures this.message == message && this.isFromMe == isFromMe && this.status == StatusOrDefault(status)
      ensures !isEditing && editContent == message && !isDeleting && !isDeleted
    {
      this.message, this.isFromMe, this.status := message, isFromMe, StatusOrDefault(status);
      isEditing, editContent, isDeleting, isDeleted := false, message, false, false;
    }

    /** The Edit menu item. */
    method StartEdit()
      modifies this`isEditing
      ensures isEditing
    {
      isEditing := true;
    }

    /** The Cancel button: edit mode ends and the draft returns to the original text. */
    method CancelEdit()
      modifies this`isEditing, this`editContent
      ensures !isEditing && editContent == message
    {
      isEditing, editContent := false, message;
    }

    /** `handleEdit` once the request (if any) has been answered. A blank or unchanged draft
        ends edit mode and restores the original text without a request; a successful request
        ends edit mode; a failed one stays in edit mode with the original text back. */
    method HandleEdit(store: Store, reply: Reply<()>) returns (requested: bool)
      modifies this`isEditing, this`editContent
      ensures requested <==> !IsBlank(old(editContent)) && old(editContent) != message && store.HasToken()
      ensures !isDeleting ==> (requested <==> !SaveDisabled(isDeleting, old(editContent), message) && store.HasToken())
      ensures IsBlank(old(editContent)) || old(editContent) == message ==>
        !isEditing && editContent == message
      ensures !IsBlank(old(editContent)) && old(editContent) != message ==>
        if store.HasToken() && Succeeded(reply) then !isEditing && editContent == old(editContent)
        else isEditing == old(isEditing) && editContent == message
    {
      if IsBlank(editContent) || editContent == message {
        isEditing, editContent := false, message;
        return false;
      }
      requested := store.HasToken();
      if store.HasToken() && Succeeded(reply) {
        isEditing := false;
      } else {
        editContent := message;
      }
    }

    /** `handleDelete` once the request has been answered: a success hides the message for
        either scope; a failure leaves it; no delete is in progress afterwards. */
    method HandleDelete(store: Store, forEveryone: bool, reply: Reply<()>)
      modifies this`isDeleting, this`isDeleted
      ensures !isDeleting
      ensures store.HasToken() && Succeeded(reply) ==> isDeleted
      ensures !(store.HasToken() && Succeeded(reply)) ==> isDeleted == old(isDeleted)
    {
      isDeleting := true;
      if store.HasToken() && Succeeded(reply) {
        if forEveryone {
          isDeleted := true;
        } else {
          isDeleted := true;
        }
      }
      isDeleting := false;
    }

    /** `markAsRead`: whether the read receipt is posted. */
    method MarkAsRead(store: Store) returns (posted: bool)
      ensures posted <==> NeedsReadReceipt(isFromMe, status) && store.HasToken()
    {
      if isFromMe || status == SEEN {
        return false;
      }
      posted := store.HasToken();
    }
  }
}

/** The message composer (`components/networking/chat/chat-input.tsx`): when a message is
    handed to the conversation, how the composer resets, the Enter shortcut, emoji and file
    insertion, and the recording-time string of the composer. */
module ChatInput {
  import opened Text
  import opened Entities
  import Clock

  /** What `onSendMessage` receives: the text as typed, the message type, the attachment. */
  datatype Outgoing = Outgoing(text: string, kind: string, attachment: Option<LocalFile>)

  /** The composer's `formatRecordingTime`: whole minutes unpadded, then the seconds on two digits. */
  function FormatRecordingTime(seconds: nat): string
  {
    NatToString(seconds / 60) + ":" + Pad2(seconds % 60)
  }

  /** The composer's recording time reads back as minutes and seconds that recompose the input,
      and its seconds field is exactly two digits long. */
  lemma RecordingTimeFields(seconds: nat)
    ensures var f := Split(FormatRecordingTime(seconds), ':');
      |f| == 2 && IsDigits(f[0]) && IsDigits(f[1]) && |f[1]| == 2 &&
      ParseNat(f[0]) == seconds / 60 && ParseNat(f[1]) == seconds % 60 &&
      Clock.ClockValue(f) == seconds
  {
    var m, s := NatToString(seconds / 60), Pad2(seconds % 60);
    SplitTwoDigitFields(m, s);
    ParseNatToString(seconds / 60);
    Clock.ClockValueTwo(m, s);
  }

  /** The composer and the conversation view write the same string from ten minutes on, and
      different strings before, when only the view pads the minutes. */
  lemma RecordingTimeFormatsAgree(seconds: nat)
    ensures FormatRecordingTime(seconds) == Clock.FormatRecordingTime(seconds) <==> seconds >= 600
  {
    if seconds < 600 {
      assert |NatToString(seconds / 60)| == 1;
      assert |FormatRecordingTime(seconds)| != |Clock.FormatRecordingTime(seconds)|;
    }
  }

  /** The state of the composer. */
  class ChatInputView {
    var message: string
    var selectedFile: Option<LocalFile>
    var showFileHandler: bool

    constructor()
      ensures message == "" && selectedFile.None? && !showFileHandler
    {
      message, selectedFile, showFileHandler := "", None, false;
    }

    /** `handleSendMessage`: with text that is not blank, or with a file, the message as typed
        goes out as "TEXT" with the file, the composer is emptied, and the reply being answered
        is cancelled when the parent passed `onCancelReply` (`hasCancelReply`). */
    method Send(hasCancelReply: bool) returns (sent: Option<Outgoing>, cancelledReply: bool)
      modifies this`message, this`selectedFile, this`showFileHandler
      ensures sent.Some? <==> !IsBlank(old(message)) || old(selectedFile).Some?
      ensures sent.Some? ==> sent.value == Outgoing(old(message), "TEXT", old(selectedFile)) &&
                             message == "" && selectedFile.None? && !showFileHandler
      ensures sent.None? ==> message == old(message) && selectedFile == old(selectedFile) &&
                             showFileHandler == old(showFileHandler)
      ensures cancelledReply <==> sent.Some? && hasCancelReply
    {
      if !IsBlank(message) || selectedFile.Some? {
        sent := Some(Outgoing(message, "TEXT", selectedFile));
        message, selectedFile, showFileHandler := "", None, false;
        cancelledReply := hasCancelReply;
      } else {
        sent, cancelledReply := None, false;
      }
    }

    /** `handleKeyDown`: Enter sends exactly as the send button does, Shift+Enter does nothing. */
    method KeyDown(key: string, shiftKey: bool, hasCancelReply: bool) returns (sent: Option<Outgoing>, cancelledReply: bool)
      modifies this`message, this`selectedFile, this`showFileHandler
      ensures !(key == "Enter" && !shiftKey) ==> (sent.None? && !cancelledReply && message == old(message) &&
        selectedFile == old(selectedFile) && showFileHandler == old(showFileHandler))
      ensures key == "Enter" && !shiftKey ==>
        (sent.Some? <==> !IsBlank(old(message)) || old(selectedFile).Some?)
      ensures key == "Enter" && !shiftKey ==>
        (sent.Some? ==> sent.value == Outgoing(old(message), "TEXT", old(selectedFile)) &&
                        message == "" && selectedFile.None? && !showFileHandler)
      ensures key == "Enter" && !shiftKey ==>
        (sent.None? ==> message == old(message) && selectedFile == old(selectedFile) &&
                        showFileHandler == old(showFileHandler))
      ensures cancelledReply <==> sent.Some? && hasCancelReply
    {
      if key == "Enter" && !shiftKey {
        sent, cancelledReply := Send(hasCancelReply);
      } else {
        sent, cancelledReply := None, false;
      }
    }

    /** `handleEmojiSelect`: the emoji goes at the end of the draft. */
    method EmojiSelect(emoji: string)
      modifies this`message
      ensures message == old(message) + emoji
    {
      message := message + emoji;
    }

    method FileSelect(file: LocalFile)
      modifies this`selectedFile
      ensures selectedFile == Some(file)
    {
      selectedFile := Some(file);
    }
  }
}

/** The call entry of a conversation (`components/networking/chat/call-message.tsx`): its
    duration string, its icon, its sentence and its alert styling. */
module CallMessage {
  import opened Text
  import opened Entities
  import Clock

  datatype CallType = Audio | Video
  datatype CallStatus = Started | Ended | Missed | Rejected

  /** `formatCallDuration` of the call entry: nothing for a call of zero seconds, otherwise
      the clock string of the call overlay. */
  function FormatDuration(seconds: nat): (r: string)
    ensures r == "" <==> seconds == 0
    ensures seconds > 0 ==> r == Clock.FormatCallDuration(seconds)
  {
    if seconds == 0 then "" else Clock.FormatCallDuration(seconds)
  }

  datatype CallIcon = Phone | PhoneOff | VideoCamera | VideoOff

  /** `getCallIcon`: the call type picks the family; the crossed-out variant marks a call
      that ended, was rejected or was missed. */
  function Icon(t: CallType, status: CallStatus): (r: CallIcon)
    ensures (r == Phone || r == PhoneOff) <==> t == Audio
    ensures (r == PhoneOff || r == VideoOff) <==> status in {Ended, Rejected, Missed}
  {
    if t == Audio then (if status in {Ended, Rejected, Missed} then PhoneOff else Phone)
    else if status in {Ended, Rejected, Missed} then VideoOff else VideoCamera
  }

  /** The call type as the sentences spell it, and as the ended sentence titles it. */
  function TypeWord(t: CallType): string
  {
    if t == Audio then "audio" else "video"
  }

  function TypeTitle(t: CallType): string
  {
    if t == Audio then "Audio call" else "Video call"
  }

  /** The separator between "ended" and the duration as the source file stores it: the three
      characters that the UTF-8 bytes of a bullet become when read as Windows-1252. */
  const SeparatorAsWritten: string := " \U{00E2}\U{20AC}\U{00A2} "

  /** The separator evidently intended: a bullet between two spaces. */
  const Separator: string := " \U{2022} "

  /** The ended sentence with the separator as the source file stores it. */
  function EndedTextAsWritten(t: CallType, duration: nat): string
  {
    TypeTitle(t) + " ended" + (if duration > 0 then SeparatorAsWritten + FormatDuration(duration) else "")
  }

  /** A sentence head, a separator free of bullets and a clock string hold no bullet together. */
  lemma NoBullet(head: string, sep: string, d: string)
    requires '\U{2022}' !in head && '\U{2022}' !in sep && Clock.IsClockText(d)
    ensures '\U{2022}' !in head + sep + d
  {
    var r := head + sep + d;
    forall i | 0 <= i < |r|
      ensures r[i] != '\U{2022}'
    {
      if i >= |head| + |sep| {
        assert r[i] == d[i - |head| - |sep|];
      } else if i >= |head| {
        assert r[i] == sep[i - |head|];
      } else {
        assert r[i] == head[i];
      }
    }
  }

  /** The fixed parts of the ended sentence hold no bullet. */
  lemma EndedHeadNoBullet(t: CallType)
    ensures '\U{2022}' !in TypeTitle(t) + " ended"
    ensures '\U{2022}' !in SeparatorAsWritten
  {
    var head := TypeTitle(t) + " ended";
    assert |head| == 16;
    assert forall i :: 0 <= i < |head| ==> head[i] != '\U{2022}';
    assert forall i :: 0 <= i < |SeparatorAsWritten| ==> SeparatorAsWritten[i] != '\U{2022}';
  }

  /** The as-written separator between a bullet-free head and a clock string: the result has
      no bullet, and has the euro sign of the misread bytes. */
  lemma AsWrittenShape(head: string, d: string)
    requires '\U{2022}' !in head && Clock.IsClockText(d)
    ensures '\U{2022}' !in head + SeparatorAsWritten + d
    ensures '\U{20AC}' in head + SeparatorAsWritten + d
  {
    EndedHeadNoBullet(Audio);
    NoBullet(head, SeparatorAsWritten, d);
    assert (head + SeparatorAsWritten + d)[|head| + 2] == SeparatorAsWritten[2];
  }

  /** As written, no ended sentence ever shows the bullet: it shows "\U{00E2}\U{20AC}\U{00A2}" instead. */
  lemma AsWrittenHasNoBullet(t: CallType, duration: nat)
    requires duration > 0
    ensures '\U{2022}' !in EndedTextAsWritten(t, duration)
    ensures '\U{20AC}' in EndedTextAsWritten(t, duration)
  {
    var head := TypeTitle(t) + " ended";
    var d := FormatDuration(duration);
    Clock.CallDurationChars(duration);
    EndedHeadNoBullet(t);
    AsWrittenShape(head, d);
  }

  /** The ended sentence, corrected: the duration follows a bullet, and only when there is one. */
  function EndedText(t: CallType, duration: nat): (r: string)
    ensures duration == 0 ==> r == TypeTitle(t) + " ended"
    ensures duration > 0 ==> StartsWith(r, TypeTitle(t) + " ended" + Separator) &&
                             r[|TypeTitle(t) + " ended" + Separator|..] == Clock.FormatCallDuration(duration)
  {
    if duration > 0 then
      var head := TypeTitle(t) + " ended" + Separator;
      PrefixOfConcat(head, FormatDuration(duration));
      head + FormatDuration(duration)
    else TypeTitle(t) + " ended"
  }

  /** The ended sentence shows a bullet exactly when it shows a duration. */
  lemma EndedBulletIffDuration(t: CallType, duration: nat)
    ensures '\U{2022}' in EndedText(t, duration) <==> duration > 0
  {
    var head := TypeTitle(t) + " ended";
    if duration > 0 {
      var r := EndedText(t, duration);
      assert r == head + Separator + FormatDuration(duration);
      assert r[|head| + 1] == '\U{2022}';
    } else {
      assert '\U{2022}' !in head;
    }
  }

  /** The person the sentence is about: the sender starts a call that is not mine; for a
      missed or declined call the roles swap, and the other side missed or declined mine. */
  function Subject(status: CallStatus, isFromMe: bool, senderName: Option<string>): (r: string)
    ensures (status == Missed || status == Rejected) ==> (isFromMe ==> r == OrElse(senderName, "User")) && (!isFromMe ==> r == "You")
    ensures status == Started ==> (isFromMe ==> r == "You") && (!isFromMe ==> r == OrElse(senderName, "User"))
  {
    var youAct := if status == Started then isFromMe else !isFromMe;
    if youAct then "You" else OrElse(senderName, "User")
  }

  /** `getCallMessage`. */
  function CallText(t: CallType, status: CallStatus, duration: nat, isFromMe: bool, senderName: Option<string>): (r: string)
    ensures status != Ended ==> StartsWith(r, Subject(status, isFromMe, senderName) + " ")
    ensures status == Ended ==> r == EndedText(t, duration)
  {
    var who := Subject(status, isFromMe, senderName);
    var w := TypeWord(t);
    match status
    case Started =>
      SubjectLeads(who, " started a ", w);
      who + " started a " + w + " call"
    case Ended => EndedText(t, duration)
    case Missed =>
      var verb := if isFromMe then " missed your " else " missed a ";
      SubjectLeads(who, verb, w);
      who + verb + w + " call"
    case Rejected =>
      var verb := if isFromMe then " declined your " else " declined a ";
      SubjectLeads(who, verb, w);
      who + verb + w + " call"
  }

  /** A sentence "<who><verb><type> call" whose verb starts with a space begins with its subject. */
  lemma SubjectLeads(who: string, verb: string, w: string)
    requires verb != [] && verb[0] == ' '
    ensures StartsWith(who + verb + w + " call", who + " ")
  {
    var r := who + verb + w + " call";
    assert r[..|who| + 1] == who + " " by {
      assert r[|who|] == ' ';
      assert forall i :: 0 <= i < |who| ==> r[i] == who[i];
    }
  }

  /** A missed call reads "X missed your ... call" from my side and "You missed a ... call" from
      the other. */
  lemma MissedPerspective(t: CallType, senderName: Option<string>)
    ensures CallText(t, Missed, 0, true, senderName) == OrElse(senderName, "User") + " missed your " + TypeWord(t) + " call"
    ensures CallText(t, Missed, 0, false, senderName) == "You missed a " + TypeWord(t) + " call"
  {
  }

  /** A started call reads "You started a ... call" from my side and "X started a ... call"
      from the other. */
  lemma StartedPerspective(t: CallType, senderName: Option<string>)
    ensures CallText(t, Started, 0, true, senderName) == "You started a " + TypeWord(t) + " call"
    ensures CallText(t, Started, 0, false, senderName) == OrElse(senderName, "User") + " started a " + TypeWord(t) + " call"
  {
  }

  /** A declined call reads "X declined your ... call" from my side and "You declined a ...
      call" from the other. */
  lemma RejectedPerspective(t: CallType, senderName: Option<string>)
    ensures CallText(t, Rejected, 0, true, senderName) == OrElse(senderName, "User") + " declined your " + TypeWord(t) + " call"
    ensures CallText(t, Rejected, 0, false, senderName) == "You declined a " + TypeWord(t) + " call"
  {
  }

  /** The red styling of missed and rejected calls. */
  predicate IsAlert(status: CallStatus)
  {
    status == Missed || status == Rejected
  }

  /** The red entries are the calls that went unanswered: they carry a crossed-out icon
      without being an ended call, and their sentence is about the side that did not answer. */
  lemma AlertMarksUnanswered(t: CallType, status: CallStatus, isFromMe: bool, senderName: Option<string>)
    ensures IsAlert(status) <==> (Icon(t, status) == PhoneOff || Icon(t, status) == VideoOff) && status != Ended
    ensures IsAlert(status) ==> Subject(status, isFromMe, senderName) == if isFromMe then OrElse(senderName, "User") else "You"
  {
  }
}

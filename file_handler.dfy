/** The attachment drop zone (`components/networking/chat/file-handler.tsx`): the icon chosen
    from the selected file's MIME type, the drag highlight, and the file a drop or a file
    input hands over. */
module FileHandler {
  import opened Text
  import opened Entities

  /** The icons the drop zone can show: a paperclip, a picture, a film, a microphone, a page. */
  datatype FileIcon = Paperclip | Picture | Film | Microphone | Document

  const ImagePrefix := "image/"
  const VideoPrefix := "video/"
  const AudioPrefix := "audio/"

  /** `getFileIcon`: a paperclip while nothing is selected; otherwise the MIME type is checked
      for "image/", then "video/", then "audio/", and anything else is a document. */
  function Icon(selected: Option<LocalFile>): (r: FileIcon)
    ensures r == Paperclip <==> selected.None?
    ensures r == Picture <==> selected.Some? && StartsWith(selected.value.mimeType, ImagePrefix)
    ensures r == Film <==> selected.Some? && StartsWith(selected.value.mimeType, VideoPrefix)
    ensures r == Microphone <==> selected.Some? && StartsWith(selected.value.mimeType, AudioPrefix)
    ensures r == Document <==> selected.Some? && !StartsWith(selected.value.mimeType, ImagePrefix) &&
                               !StartsWith(selected.value.mimeType, VideoPrefix) &&
                               !StartsWith(selected.value.mimeType, AudioPrefix)
  {
    if selected.None? then Paperclip
    else
      var t := selected.value.mimeType;
      PrefixesExclusive(t);
      if StartsWith(t, ImagePrefix) then Picture
      else if StartsWith(t, VideoPrefix) then Film
      else if StartsWith(t, AudioPrefix) then Microphone
      else Document
  }

  /** A MIME type starts with at most one of the three prefixes, so the order of the tests
      never decides the icon. */
  lemma PrefixesExclusive(t: string)
    ensures !(StartsWith(t, ImagePrefix) && StartsWith(t, VideoPrefix))
    ensures !(StartsWith(t, ImagePrefix) && StartsWith(t, AudioPrefix))
    ensures !(StartsWith(t, VideoPrefix) && StartsWith(t, AudioPrefix))
  {
    if StartsWith(t, ImagePrefix) {
      assert t[0] == 'i';
    }
    if StartsWith(t, VideoPrefix) {
      assert t[0] == 'v';
    }
  }

  /** `handleDrag`: the highlight after one drag event. Entering or hovering turns it on,
      leaving turns it off, and any other event type leaves it as it was. */
  function DragState(active: bool, eventType: string): (r: bool)
    ensures eventType == "dragenter" || eventType == "dragover" ==> r
    ensures eventType == "dragleave" ==> !r
    ensures eventType != "dragenter" && eventType != "dragover" && eventType != "dragleave" ==> r == active
  {
    if eventType == "dragenter" || eventType == "dragover" then true
    else if eventType == "dragleave" then false
    else active
  }

  /** An event type that moves the highlight. */
  predicate Moves(eventType: string)
  {
    eventType == "dragenter" || eventType == "dragover" || eventType == "dragleave"
  }

  /** The highlight after a run of drag events, handled one `handleDrag` at a time in order. */
  function DragAfter(active: bool, events: seq<string>): bool
    decreases |events|
  {
    if events == [] then active
    else DragState(DragAfter(active, events[..|events| - 1]), events[|events| - 1])
  }

  /** The last event of the run that moves the highlight, if any. */
  function LastMove(events: seq<string>): (r: Option<string>)
    ensures r.Some? ==> Moves(r.value) && r.value in events
    ensures r.None? <==> forall i :: 0 <= i < |events| ==> !Moves(events[i])
    ensures r.Some? ==> exists i :: 0 <= i < |events| && events[i] == r.value &&
                                    forall j :: i < j < |events| ==> !Moves(events[j])
    decreases |events|
  {
    if events == [] then None
    else if Moves(events[|events| - 1]) then Some(events[|events| - 1])
    else
      var front := events[..|events| - 1];
      var r := LastMove(front);
      assert forall i :: 0 <= i < |events| - 1 ==> front[i] == events[i];
      assert r.Some? ==> exists i :: 0 <= i < |events| && events[i] == r.value &&
                                     forall j :: i < j < |events| ==> !Moves(events[j]) by {
        if r.Some? {
          var i :| 0 <= i < |front| && front[i] == r.value && forall j :: i < j < |front| ==> !Moves(front[j]);
          assert events[i] == r.value;
          forall j | i < j < |events|
            ensures !Moves(events[j])
          {
            if j < |front| {
              assert front[j] == events[j];
            }
          }
        }
      }
      r
  }

  /** After any run of drag events the highlight is decided by the last event that moves it:
      on after an enter or a hover, off after a leave, and unchanged when none moved it. */
  lemma {:induction false} DragAfterLastMove(active: bool, events: seq<string>)
    ensures DragAfter(active, events) == match LastMove(events)
                                         case None => active
                                         case Some(e) => e != "dragleave"
    decreases |events|
  {
    if events != [] {
      DragAfterLastMove(active, events[..|events| - 1]);
    }
  }

  /** `files && files[0]`: the first file of a drop or of a file input, when there is one. */
  function FirstFile(files: seq<LocalFile>): (r: Option<LocalFile>)
    ensures r.None? <==> files == []
    ensures r.Some? ==> r.value == files[0]
  {
    if files == [] then None else Some(files[0])
  }

  /** The drop zone's own state. */
  class FileHandlerView {
    var dragActive: bool

    constructor()
      ensures !dragActive
    {
      dragActive := false;
    }

    /** `handleDrag`. */
    method HandleDrag(eventType: string)
      modifies this`dragActive
      ensures dragActive == DragState(old(dragActive), eventType)
    {
      if eventType == "dragenter" || eventType == "dragover" {
        dragActive := true;
      } else if eventType == "dragleave" {
        dragActive := false;
      }
    }

    /** `handleDrop`: the highlight always goes off, and the first dropped file, if any, is
        what `onFileSelect` receives. */
    method HandleDrop(files: seq<LocalFile>) returns (picked: Option<LocalFile>)
      modifies this`dragActive
      ensures !dragActive
      ensures picked == FirstFile(files)
    {
      dragActive := false;
      picked := None;
      if |files| > 0 {
        picked := Some(files[0]);
      }
    }

    /** `handleFileChange`: the first chosen file, if any, is what `onFileSelect` receives;
        the highlight is not touched. */
    method HandleFileChange(files: seq<LocalFile>) returns (picked: Option<LocalFile>)
      ensures picked == FirstFile(files)
    {
      picked := None;
      if |files| > 0 {
        picked := Some(files[0]);
      }
    }
  }
}

/** The image and file bubbles (`components/networking/chat/image-message.tsx` and
    `components/networking/chat/file-message.tsx`): how a stored URL becomes an absolute one,
    the download link, the delete outcome and the read receipt. */
module Attachments {
  import opened Text
  import opened Entities

  /** The backend base URL as a template literal renders it: an unset variable prints as
      "undefined". */
  function BaseText(backendUrl: Option<string>): (r: string)
    ensures backendUrl.Some? ==> r == backendUrl.value
    ensures backendUrl.None? ==> r == "undefined"
  {
    if backendUrl.Some? then backendUrl.value else "undefined"
  }

  /** A URL that starts with "http" is used as it is; any other is appended to the backend
      base URL. */
  function ResolveUrl(backendUrl: Option<string>, url: string): (r: string)
    ensures StartsWith(url, "http") ==> r == url
    ensures !StartsWith(url, "http") ==> StartsWith(r, BaseText(backendUrl)) &&
                                         r[|BaseText(backendUrl)|..] == url
  {
    if StartsWith(url, "http") then url
    else
      PrefixOfConcat(BaseText(backendUrl), url);
      BaseText(backendUrl) + url
  }

  /** With an absolute base URL, every resolved URL is absolute, so resolving again changes
      nothing. */
  lemma ResolveUrlIdempotent(backendUrl: Option<string>, url: string)
    requires StartsWith(BaseText(backendUrl), "http")
    ensures StartsWith(ResolveUrl(backendUrl, url), "http")
    ensures ResolveUrl(backendUrl, ResolveUrl(backendUrl, url)) == ResolveUrl(backendUrl, url)
  {
    var b := BaseText(backendUrl);
    if !StartsWith(url, "http") {
      var r := b + url;
      assert r[..4] == b[..4];
    }
  }

  /** The test is on the text, not on the scheme: a relative path that happens to begin with
      "http" is taken as absolute. */
  lemma HttpNamedPathKept(backendUrl: Option<string>, rest: string)
    ensures ResolveUrl(backendUrl, "httpdocs/" + rest) == "httpdocs/" + rest
  {
    assert ("httpdocs/" + rest)[..4] == "http";
  }

  /** What an image bubble shows. */
  datatype ImageBody = DeletedImageNote(text: string) | Picture(src: string)

  /** What a file bubble shows. */
  datatype FileBody = DeletedFileNote(text: string) | FileCard(name: string, size: string)

  /** `handleDelete` in both bubbles: whether the message is hidden afterwards. */
  function DeletedAfter(wasDeleted: bool, hasToken: bool, reply: Reply<()>): (r: bool)
    ensures r <==> wasDeleted || (hasToken && Succeeded(reply))
  {
    if hasToken && Succeeded(reply) then true else wasDeleted
  }

  /** An image message. */
  class ImageMessageView {
    const id: string
    const imageUrl: string
    const isFromMe: bool
    var isDeleting: bool
    var isDeleted: bool
    var showFullImage: bool

    constructor(id: string, imageUrl: string, isFromMe: bool)
      ensures this.id == id && this.imageUrl == imageUrl && this.isFromMe == isFromMe
      ensures !isDeleting && !isDeleted && !showFullImage
    {
      this.id, this.imageUrl, this.isFromMe := id, imageUrl, isFromMe;
      isDeleting, isDeleted, showFullImage := false, false, false;
    }

    /** Once deleted, the note replaces the picture; otherwise the picture shows the resolved
        URL, or the placeholder when that is empty. */
    function Body(backendUrl: Option<string>): (r: ImageBody)
      reads this
      ensures isDeleted <==> r.DeletedImageNote?
      ensures r.DeletedImageNote? ==> r.text == "This image was deleted"
      ensures r.Picture? ==> r.src == OrElse(Some(ResolveUrl(backendUrl, imageUrl)), "/placeholder.svg")
      ensures r.Picture? ==> r.src != ""
    {
      if isDeleted then DeletedImageNote("This image was deleted")
      else Picture(OrElse(Some(ResolveUrl(backendUrl, imageUrl)), "/placeholder.svg"))
    }

    /** `handleDownload`: the link's target and the file name it suggests; `now` is the
        current time in milliseconds. */
    method Download(backendUrl: Option<string>, now: nat) returns (href: string, name: string)
      ensures href == ResolveUrl(backendUrl, imageUrl)
      ensures StartsWith(name, "image-") && EndsWith(name, ".jpg")
      ensures |name| >= 11 && name[6..|name| - 4] == NatToString(now)
    {
      href := if StartsWith(imageUrl, "http") then imageUrl else BaseText(backendUrl) + imageUrl;
      var stamp := NatToString(now);
      name := "image-" + stamp + ".jpg";
      assert name[..6] == "image-";
      assert name[|name| - 4..] == ".jpg";
      assert name[6..|name| - 4] == stamp;
    }

    /** Clicking the picture, or its enlarge button, opens the full-size view. */
    method OpenFullImage()
      modifies this`showFullImage
      ensures showFullImage
    {
      showFullImage := true;
    }

    /** The full-size dialog reports its open state back. */
    method FullImageOpenChange(open: bool)
      modifies this`showFullImage
      ensures showFullImage == open
    {
      showFullImage := open;
    }

    /** `handleDelete` once the request (if any) has been answered: a success hides the image
        for either scope, a failure leaves it, and no delete is in progress afterwards. */
    method HandleDelete(store: Store, forEveryone: bool, reply: Reply<()>)
      modifies this`isDeleting, this`isDeleted
      ensures !isDeleting
      ensures isDeleted == DeletedAfter(old(isDeleted), store.HasToken(), reply)
    {
      isDeleting := true;
      if store.HasToken() && Succeeded(reply) {
        if forEveryone {
          isDeleted := true;
        } else {
          isDeleted := true;
        }
      }
      isDeleting := false;
    }
  }

  /** A file message. */
  class FileMessageView {
    const id: string
    const fileName: string
    const fileSize: string
    const fileUrl: string
    const isFromMe: bool
    var isDeleting: bool
    var isDeleted: bool

    constructor(id: string, fileName: string, fileSize: string, fileUrl: string, isFromMe: bool)
      ensures this.id == id && this.fileName == fileName && this.fileSize == fileSize
      ensures this.fileUrl == fileUrl && this.isFromMe == isFromMe
      ensures !isDeleting && !isDeleted
    {
      this.id, this.fileName, this.fileSize, this.fileUrl, this.isFromMe :=
        id, fileName, fileSize, fileUrl, isFromMe;
      isDeleting, isDeleted := false, false;
    }

    /** Once deleted, the note replaces the file card. */
    function Body(): (r: FileBody)
      reads this
      ensures isDeleted <==> r.DeletedFileNote?
      ensures r.DeletedFileNote? ==> r.text == "This file was deleted"
      ensures r.FileCard? ==> r.name == fileName && r.size == fileSize
    {
      if isDeleted then DeletedFileNote("This file was deleted") else FileCard(fileName, fileSize)
    }

    /** `handleDownload`: the resolved URL, saved under the message's own file name. */
    method Download(backendUrl: Option<string>) returns (href: string, name: string)
      ensures href == ResolveUrl(backendUrl, fileUrl)
      ensures name == fileName
    {
      href := if StartsWith(fileUrl, "http") then fileUrl else BaseText(backendUrl) + fileUrl;
      name := fileName;
    }

    /** `handleDelete` once the request (if any) has been answered: a success hides the file
        for either scope, a failure leaves it, and no delete is in progress afterwards. */
    method HandleDelete(store: Store, forEveryone: bool, reply: Reply<()>)
      modifies this`isDeleting, this`isDeleted
      ensures !isDeleting
      ensures isDeleted == DeletedAfter(old(isDeleted), store.HasToken(), reply)
    {
      isDeleting := true;
      if store.HasToken() && Succeeded(reply) {
        if forEveryone {
          isDeleted := true;
        } else {
          isDeleted := true;
        }
      }
      isDeleting := false;
    }

    /** `markAsRead`: whether the read receipt is posted; never for one's own message. */
    method MarkAsRead(store: Store) returns (posted: bool)
      ensures posted <==> !isFromMe && store.HasToken()
    {
      if isFromMe {
        return false;
      }
      posted := store.HasToken();
    }
  }
}

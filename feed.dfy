/** The community feed page (`app/habits/networking/page.tsx`): loading the posts, the three
    list updates the post cards report back, and the defaults a card is given for missing
    fields. */
module Feed {
  import opened Text
  import opened Lists
  import opened Entities

  /** The author summary a post may carry. */
  datatype Author = Author(id: Option<string>, fullname: Option<string>, photo: Option<string>)

  /** A post as the backend sends it; every field the page reads with a fallback is optional.
      The media list is kept opaque, as a list of media ids. */
  datatype Post = Post(
    id: string,
    content: Option<string>,
    media: Option<seq<string>>,
    user: Option<Author>,
    likes: Option<int>,
    comments: Option<int>,
    shares: Option<int>,
    createdAt: Option<string>)

  /** `handlePostCreated`: the new post goes first. */
  function WithCreated(posts: seq<Post>, post: Post): (r: seq<Post>)
    ensures |r| == |posts| + 1 && r[0] == post && r[1..] == posts
  {
    [post] + posts
  }

  /** `handlePostUpdated`: every post with the same id is replaced, in place. */
  function WithUpdated(posts: seq<Post>, post: Post): (r: seq<Post>)
    ensures |r| == |posts|
    ensures forall i :: 0 <= i < |posts| ==> r[i] == if posts[i].id == post.id then post else posts[i]
  {
    ReplaceWhere((p: Post) => p.id == post.id, posts, post)
  }

  /** `handlePostDeleted`: every post with that id is removed, the rest keep their order. */
  function WithDeleted(posts: seq<Post>, id: string): (r: seq<Post>)
    ensures |r| <= |posts|
    ensures forall i :: 0 <= i < |r| ==> r[i].id != id && r[i] in posts
    ensures forall i :: 0 <= i < |posts| && posts[i].id != id ==> posts[i] in r
    ensures IsFilterOf(r, (p: Post) => p.id != id, posts)
  {
    FilterOrder((p: Post) => p.id != id, posts);
    Filter((p: Post) => p.id != id, posts)
  }

  /** Updating a post the feed does not show changes nothing. */
  lemma UpdateAbsentIsNoOp(posts: seq<Post>, post: Post)
    requires forall i :: 0 <= i < |posts| ==> posts[i].id != post.id
    ensures WithUpdated(posts, post) == posts
  {
    ReplaceWhereNone((p: Post) => p.id == post.id, posts, post);
  }

  /** Deleting after an update gives what deleting alone gives. */
  lemma {:induction false} DeleteAfterUpdate(posts: seq<Post>, post: Post)
    ensures WithDeleted(WithUpdated(posts, post), post.id) == WithDeleted(posts, post.id)
    decreases |posts|
  {
    if posts != [] {
      var u := WithUpdated(posts, post);
      assert u == [u[0]] + u[1..];
      assert u[1..] == WithUpdated(posts[1..], post);
      assert posts == [posts[0]] + posts[1..];
      FilterConcat((p: Post) => p.id != post.id, [u[0]], u[1..]);
      FilterConcat((p: Post) => p.id != post.id, [posts[0]], posts[1..]);
      DeleteAfterUpdate(posts[1..], post);
    }
  }

  /** Deleting a post that was just created removes it, and every older copy of its id. */
  lemma DeleteAfterCreate(posts: seq<Post>, post: Post)
    ensures WithDeleted(WithCreated(posts, post), post.id) == WithDeleted(posts, post.id)
  {
    FilterConcat((p: Post) => p.id != post.id, [post], posts);
  }

  /** Updating twice with the same post is the same as updating once. */
  lemma UpdateIdempotent(posts: seq<Post>, post: Post)
    ensures WithUpdated(WithUpdated(posts, post), post) == WithUpdated(posts, post)
  {
  }

  /** Deleting twice is the same as deleting once. */
  lemma DeleteIdempotent(posts: seq<Post>, id: string)
    ensures WithDeleted(WithDeleted(posts, id), id) == WithDeleted(posts, id)
  {
    var d := WithDeleted(posts, id);
    FilterKeepsAll((p: Post) => p.id != id, d);
  }

  /** What a post card is given. */
  datatype Card = Card(
    userId: string,
    fullname: string,
    photo: string,
    content: string,
    media: seq<string>,
    likes: int,
    comments: int,
    shares: int,
    createdAt: string)

  /** `x || 0` on an optional count. */
  function CountOrZero(x: Option<int>): (r: int)
    ensures x.None? ==> r == 0
    ensures x.Some? ==> r == x.value
  {
    if x.Some? && x.value != 0 then x.value else 0
  }

  /** The card props of a post, with each missing or empty field replaced by its default;
      `now` is the current time as an ISO string. The card never gets an empty author id,
      name or photo. */
  function CardOf(post: Post, now: string): (r: Card)
    ensures r.userId != "" && r.fullname != "" && r.photo != ""
    ensures post.user.None? ==> r.userId == "default-id" && r.fullname == "Unknown User" &&
                                r.photo == "/default-avatar.png"
    ensures post.user.Some? ==> r.userId == OrElse(post.user.value.id, "default-id") &&
                                r.fullname == OrElse(post.user.value.fullname, "Unknown User") &&
                                r.photo == OrElse(post.user.value.photo, "/default-avatar.png")
    ensures post.content.None? ==> r.content == ""
    ensures post.content.Some? ==> r.content == post.content.value
    ensures r.media == post.media.GetOr([])
    ensures post.likes.None? ==> r.likes == 0
    ensures post.comments.None? ==> r.comments == 0
    ensures post.shares.None? ==> r.shares == 0
    ensures post.likes.Some? ==> r.likes == post.likes.value
    ensures post.comments.Some? ==> r.comments == post.comments.value
    ensures post.shares.Some? ==> r.shares == post.shares.value
    ensures r.createdAt == OrElse(post.createdAt, now)
  {
    var author := post.user.GetOr(Author(None, None, None));
    Card(
      OrElse(author.id, "default-id"),
      OrElse(author.fullname, "Unknown User"),
      OrElse(author.photo, "/default-avatar.png"),
      OrElse(post.content, ""),
      if post.media.Some? then post.media.value else [],
      CountOrZero(post.likes),
      CountOrZero(post.comments),
      CountOrZero(post.shares),
      OrElse(post.createdAt, now))
  }

  /** The page's state. */
  class FeedPage {
    var posts: seq<Post>
    var loading: bool

    constructor()
      ensures posts == [] && loading
    {
      posts, loading := [], true;
    }

    /** `fetchPosts` once the request (if any) has been answered: a successful reply replaces
        the posts; a missing token, a transport failure or an error status leaves them as
        they were; loading is over either way. */
    method LoadPosts(store: Store, reply: Reply<seq<Post>>)
      modifies this`posts, this`loading
      ensures !loading
      ensures posts == if store.HasToken() && Succeeded(reply) then reply.body else old(posts)
    {
      loading := true;
      if store.HasToken() && Succeeded(reply) {
        posts := reply.body;
      }
      loading := false;
    }

    method PostCreated(post: Post)
      modifies this`posts
      ensures posts == WithCreated(old(posts), post)
    {
      posts := [post] + posts;
    }

    method PostUpdated(post: Post)
      modifies this`posts
      ensures posts == WithUpdated(old(posts), post)
    {
      posts := ReplaceWhere((p: Post) => p.id == post.id, posts, post);
    }

    method PostDeleted(id: string)
      modifies this`posts
      ensures posts == WithDeleted(old(posts), id)
    {
      posts := Filter((p: Post) => p.id != id, posts);
    }
  }
}

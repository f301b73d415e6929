/**
 * The page of one post: loading it with its repost backlink and its comments, the once-per-browser
 * upvote, adding a comment, and the secret-key gate in front of edit and delete.
 */
module PostPage {
  import opened Wrappers
  import opened Text
  import opened Posts
  import opened Store

  datatype UpvoteOutcome = AlreadyUpvoted | Upvoted | UpvoteFailed
  datatype CommentOutcome = BlankComment | CommentAdded | CommentFailed

  /** The stored author of a comment: the typed name, or "Anonymous" when nothing was typed. A name of
      spaces is kept as it is. */
  function AuthorOrAnonymous(name: string): (r: string)
    ensures r != ""
    ensures name != "" ==> r == name
    ensures name == "" ==> r == "Anonymous"
  {
    if name == "" then "Anonymous" else name
  }

  /**
   * The best-effort lookup of the "Reposted from" link: only a post whose `repost_of` is a non-empty id
   * has one, and only when the lookup of that id succeeds. A failed lookup yields nothing, and the
   * page shows no error.
   */
  function ResolveBacklink(posts: map<PostId, Post>, p: Post, ok: bool): (r: Option<Backlink>)
    ensures r.Some? <==> TruthyText(p.repostOf) && ok && p.repostOf.value in posts
    ensures r.Some? ==> r.value.id == p.repostOf.value && r.value.title == posts[r.value.id].title
  {
    if TruthyText(p.repostOf) && ok && p.repostOf.value in posts
    then Some(Backlink(p.repostOf.value, posts[p.repostOf.value].title))
    else None
  }

  class PostPageSession {
    const id: PostId
    var post: Option<Post>
    var originalPost: Option<Backlink>
    var comments: seq<Comment>
    var newComment: string
    var authorName: string
    var secretKey: string
    var hasUpvoted: bool

    constructor (id: PostId)
      ensures this.id == id && post == None && originalPost == None && comments == []
      ensures newComment == "" && authorName == "" && secretKey == "" && !hasUpvoted
    {
      this.id := id;
      post := None;
      originalPost := None;
      comments := [];
      newComment := "";
      authorName := "";
      secretKey := "";
      hasUpvoted := false;
    }

    /** The owner controls (secret input, edit and delete buttons) are rendered only for a post with a
        truthy secret. */
    function OwnerControlsShown(): bool
      reads this
    {
      post.Some? && TruthyText(post.value.secretKey)
    }

    /**
     * What the page does when it opens: read the local upvote flag, fetch the post and, if it is a
     * repost, its backlink, and fetch the comments. A failed fetch leaves the previous value.
     */
    method Load(board: Board, flags: ClientFlags, postOk: bool, originalOk: bool, commentsOk: bool)
      requires board.Valid()
      modifies this`hasUpvoted, this`post, this`originalPost, this`comments
      ensures hasUpvoted <==> id in flags.upvoted
      ensures post == if postOk && id in board.posts then Some(board.posts[id]) else old(post)
      ensures originalPost ==
        if postOk && id in board.posts && ResolveBacklink(board.posts, board.posts[id], originalOk).Some?
        then ResolveBacklink(board.posts, board.posts[id], originalOk) else old(originalPost)
      ensures comments == if commentsOk then CommentsOf(board.comments, id) else old(comments)
    {
      hasUpvoted := id in flags.upvoted;
      var fetched := board.Fetch(id, postOk);
      if fetched.Some? {
        post := fetched;
        if TruthyText(fetched.value.repostOf) {
          var original := board.Fetch(fetched.value.repostOf.value, originalOk);
          if original.Some? {
            originalPost := Some(Backlink(original.value.id, original.value.title));
          }
        }
      }
      var thread := board.FetchComments(id, commentsOk);
      if thread.Some? {
        comments := thread.value;
      }
    }

    /**
     * The upvote button. A browser that has upvoted this post before gets a notice and nothing else.
     * Otherwise the shown count (null read as 0) plus one is written to the store; only if the store
     * accepts it are the shown post, the page flag and the local flag updated.
     */
    method HandleUpvote(board: Board, flags: ClientFlags, ok: bool) returns (outcome: UpvoteOutcome)
      requires post.Some? && board.Valid()
      modifies this`post, this`hasUpvoted, board, flags
      ensures board.Valid() && board.comments == old(board.comments)
      ensures outcome == AlreadyUpvoted <==> old(hasUpvoted)
      ensures outcome == Upvoted <==> !old(hasUpvoted) && ok
      ensures outcome != Upvoted ==>
        && post == old(post) && hasUpvoted == old(hasUpvoted)
        && flags.upvoted == old(flags.upvoted) && board.posts == old(board.posts)
      ensures outcome == Upvoted ==>
        var n := old(post.value.upvotes).GetOr(0) + 1;
        && post == Some(old(post.value).(upvotes := Some(n)))
        && hasUpvoted && flags.upvoted == old(flags.upvoted) + {id}
        && board.posts == if id in old(board.posts)
                          then old(board.posts)[id := old(board.posts)[id].(upvotes := Some(n))]
                          else old(board.posts)
    {
      if hasUpvoted {
        return AlreadyUpvoted;
      }
      var n := post.value.upvotes.GetOr(0) + 1;
      var stored := board.SetUpvotes(id, n, ok);
      if !stored {
        return UpvoteFailed;
      }
      post := Some(post.value.(upvotes := Some(n)));
      hasUpvoted := true;
      flags.upvoted := flags.upvoted + {id};
      outcome := Upvoted;
    }

    /**
     * The comment form. A comment that is blank once trimmed is dropped without a store call. Otherwise
     * the untrimmed text is inserted under this post with the author or "Anonymous"; on success the
     * stored comment is appended to the shown thread and both inputs are cleared.
     */
    method HandleAddComment(board: Board, now: int, ok: bool) returns (outcome: CommentOutcome)
      requires board.Valid()
      modifies this`comments, this`newComment, this`authorName, board
      ensures board.Valid() && board.posts == old(board.posts)
      ensures outcome == BlankComment <==> IsBlank(old(newComment))
      ensures outcome == CommentAdded <==> !IsBlank(old(newComment)) && ok
      ensures outcome != CommentAdded ==>
        && comments == old(comments) && board.comments == old(board.comments)
        && newComment == old(newComment) && authorName == old(authorName)
      ensures outcome == CommentAdded ==>
        var c := Comment(|old(board.comments)|, id, old(newComment), AuthorOrAnonymous(old(authorName)), now);
        && board.comments == old(board.comments) + [c]
        && comments == old(comments) + [c]
        && newComment == "" && authorName == ""
    {
      if IsBlank(newComment) {
        return BlankComment;
      }
      var inserted := board.InsertComment(id, newComment, AuthorOrAnonymous(authorName), now, ok);
      if inserted.None? {
        return CommentFailed;
      }
      comments := comments + [inserted.value];
      newComment := "";
      authorName := "";
      outcome := CommentAdded;
    }

    /** The delete confirmation. The gate refuses with no store call; past the gate the post is deleted
        and the browser goes to the listing, or stays on a store error. */
    method HandleDelete(board: Board, ok: bool) returns (nav: Nav)
      requires post.Some? && board.Valid()
      modifies board
      ensures board.Valid() && board.comments == old(board.comments)
      ensures !CanMutate(post.value.secretKey, secretKey) ==> nav == Stay && board.posts == old(board.posts)
      ensures CanMutate(post.value.secretKey, secretKey) ==>
        && nav == (if ok then ToHome else Stay)
        && board.posts == if ok then old(board.posts) - {id} else old(board.posts)
    {
      if !CanMutate(post.value.secretKey, secretKey) {
        return Stay;
      }
      var deleted := board.Delete(id, ok);
      nav := if deleted then ToHome else Stay;
    }

    /** The edit button: past the gate the browser goes to the edit page of this post. */
    method HandleEdit() returns (nav: Nav)
      requires post.Some?
      ensures nav == ToEdit(id) <==> CanMutate(post.value.secretKey, secretKey)
      ensures nav != ToEdit(id) ==> nav == Stay
      ensures nav.ToEdit? ==> OwnerControlsShown()
    {
      if !CanMutate(post.value.secretKey, secretKey) {
        return Stay;
      }
      nav := ToEdit(id);
    }
  }
}

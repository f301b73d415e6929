/**
 * The two collaborators the pages talk to. `Board` is the remote store with its `posts` and `comments`
 * tables; every call takes an `ok` flag that stands for the network or the store reporting an error,
 * in which case nothing is applied. `ClientFlags` is the browser's local storage, of which the pages
 * use only the `upvoted_<id>` keys.
 */
module Store {
  import opened Wrappers
  import opened Posts

  /** The comments of one post, in the order the store holds them. */
  function CommentsOf(cs: seq<Comment>, postId: PostId): (r: seq<Comment>)
    ensures |r| <= |cs|
    ensures forall c :: c in r <==> c in cs && c.postId == postId
  {
    if cs == [] then []
    else if cs[0].postId == postId then [cs[0]] + CommentsOf(cs[1..], postId)
    else CommentsOf(cs[1..], postId)
  }

  /** Appending a comment to the store appends it to the thread of its post and to no other thread. */
  lemma {:induction false} CommentsOfAppend(cs: seq<Comment>, c: Comment, postId: PostId)
    ensures CommentsOf(cs + [c], postId)
            == CommentsOf(cs, postId) + (if c.postId == postId then [c] else [])
  {
    if cs == [] {
      assert [c][1..] == [];
    } else {
      assert (cs + [c])[1..] == cs[1..] + [c];
      CommentsOfAppend(cs[1..], c, postId);
    }
  }

  class Board {
    var posts: map<PostId, Post>
    var comments: seq<Comment>

    /** Each row sits under its own id; comment ids are their positions. */
    ghost predicate Valid()
      reads this
    {
      && (forall k :: k in posts ==> posts[k].id == k)
      && (forall i :: 0 <= i < |comments| ==> comments[i].id == i)
    }

    constructor ()
      ensures Valid() && posts == map[] && comments == []
    {
      posts := map[];
      comments := [];
    }

    /** `select(...).eq('id', id).single()`: an error unless exactly the row with that id exists. */
    method Fetch(id: PostId, ok: bool) returns (r: Option<Post>)
      ensures r.Some? <==> ok && id in posts
      ensures r.Some? ==> r.value == posts[id]
    {
      if ok && id in posts {
        r := Some(posts[id]);
      } else {
        r := None;
      }
    }

    /** `select('*').eq('post_id', id).order('created_at', ascending)`. */
    method FetchComments(postId: PostId, ok: bool) returns (r: Option<seq<Comment>>)
      ensures r.Some? <==> ok
      ensures r.Some? ==> forall c :: c in r.value <==> c in comments && c.postId == postId
      ensures r.Some? ==> r.value == CommentsOf(comments, postId)
    {
      if ok {
        r := Some(CommentsOf(comments, postId));
      } else {
        r := None;
      }
    }

    /** `insert([rec]).select()`: a new row under the store-chosen id, unless that id is taken. */
    method Insert(rec: NewPost, newId: PostId, now: int, ok: bool) returns (r: Option<Post>)
      requires Valid()
      modifies this
      ensures Valid()
      ensures r.Some? <==> ok && newId !in old(posts)
      ensures r.Some? ==> r.value == Created(rec, newId, now) && posts == old(posts)[newId := r.value]
      ensures r.None? ==> posts == old(posts)
      ensures comments == old(comments)
    {
      if ok && newId !in posts {
        r := Some(Created(rec, newId, now));
        posts := posts[newId := r.value];
      } else {
        r := None;
      }
    }

    /** `update(u).eq('id', id)`: succeeds whenever the store answers, also when no row has that id. */
    method Update(id: PostId, u: PostUpdate, ok: bool) returns (success: bool)
      requires Valid()
      modifies this
      ensures Valid()
      ensures success == ok
      ensures posts == if ok && id in old(posts) then old(posts)[id := Updated(old(posts)[id], u)] else old(posts)
      ensures comments == old(comments)
    {
      success := ok;
      if ok && id in posts {
        posts := posts[id := Updated(posts[id], u)];
      }
    }

    /** `update({ upvotes: n }).eq('id', id)`. */
    method SetUpvotes(id: PostId, n: int, ok: bool) returns (success: bool)
      requires Valid()
      modifies this
      ensures Valid()
      ensures success == ok
      ensures posts == if ok && id in old(posts) then old(posts)[id := old(posts)[id].(upvotes := Some(n))] else old(posts)
      ensures comments == old(comments)
    {
      success := ok;
      if ok && id in posts {
        posts := posts[id := posts[id].(upvotes := Some(n))];
      }
    }

    /** `delete().eq('id', id)`. No cascade: the post's comments, and posts that name it in
        `repost_of`, stay as they are. */
    method Delete(id: PostId, ok: bool) returns (success: bool)
      requires Valid()
      modifies this
      ensures Valid()
      ensures success == ok
      ensures posts == if ok then old(posts) - {id} else old(posts)
      ensures comments == old(comments)
    {
      success := ok;
      if ok {
        posts := posts - {id};
      }
    }

    /** `insert([{ post_id, content, author_name }]).select()` on the comments table. */
    method InsertComment(postId: PostId, content: string, authorName: string, now: int, ok: bool)
      returns (r: Option<Comment>)
      requires Valid()
      modifies this
      ensures Valid()
      ensures r.Some? <==> ok
      ensures r.Some? ==> r.value == Comment(|old(comments)|, postId, content, authorName, now)
                          && comments == old(comments) + [r.value]
      ensures r.None? ==> comments == old(comments)
      ensures posts == old(posts)
    {
      if ok {
        r := Some(Comment(|comments|, postId, content, authorName, now));
        comments := comments + [r.value];
      } else {
        r := None;
      }
    }
  }

  /** The browser's local storage: the ids for which an `upvoted_<id>` key exists. */
  class ClientFlags {
    var upvoted: set<PostId>

    constructor ()
      ensures upvoted == {}
    {
      upvoted := {};
    }
  }
}

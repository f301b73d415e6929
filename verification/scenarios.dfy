/**
 * Client code that drives the pages through three scenarios, relying only on the handlers' contracts.
 */
module Scenarios {
  import opened Wrappers
  import opened Text
  import opened Posts
  import opened Store
  import PostPage
  import CreatePost
  import EditPost

  /** Creating a post with title "A" and secret "x" stores both as typed. */
  method CreateWithSecret(now: int) returns (board: Board)
    ensures fresh(board) && board.Valid()
    ensures "p1" in board.posts && board.posts["p1"].secretKey == Some("x")
  {
    board := new Board();
    var create := new CreatePost.CreateSession();
    create.HandleInputChange(Title, "A");
    create.HandleInputChange(SecretKey, "x");
    assert !IsBlank(create.form.title);
    var nav := create.HandleSubmit(board, "p1", now, true);
    assert nav == ToPost("p1");
  }

  /** The post created with secret "x" refuses "y", accepts "x", and keeps "x" after an edit. */
  method SecretKeyScenario(now: int) {
    var board := CreateWithSecret(now);
    var edit := new EditPost.EditSession("p1");
    var nav := edit.Load(board, true);
    edit.secretKey := "y";
    assert !IsBlank("y");
    var outcome := edit.HandleVerifyKey(board, true);
    assert outcome == EditPost.KeyRejected && !edit.verified;
    edit.secretKey := "x";
    assert !IsBlank("x");
    outcome := edit.HandleVerifyKey(board, true);
    assert edit.verified;
    edit.HandleInputChange(Title, "B");
    assert !IsBlank(edit.form.title);
    nav := edit.HandleSubmit(board, true);
    assert nav == ToPost("p1");
    assert board.posts["p1"].title == "B" && board.posts["p1"].secretKey == Some("x");
  }

  /** In one browser the first upvote counts once and the second is refused. */
  method UpvoteTwiceScenario(now: int) {
    var board := new Board();
    var flags := new ClientFlags();
    var create := new CreatePost.CreateSession();
    create.HandleInputChange(Title, "A");
    assert !IsBlank(create.form.title);
    var nav := create.HandleSubmit(board, "p1", now, true);

    var page := new PostPage.PostPageSession("p1");
    page.Load(board, flags, true, true, true);
    assert !page.hasUpvoted && page.post == Some(board.posts["p1"]);
    var first := page.HandleUpvote(board, flags, true);
    assert first == PostPage.Upvoted && board.posts["p1"].upvotes == Some(1);
    var second := page.HandleUpvote(board, flags, true);
    assert second == PostPage.AlreadyUpvoted && board.posts["p1"].upvotes == Some(1);

    var reopened := new PostPage.PostPageSession("p1");
    reopened.Load(board, flags, true, true, true);
    assert reopened.hasUpvoted;
  }

  /** A repost shows its backlink while the source exists, and silently none once it is deleted. */
  method LineageScenario(a: Post, b: Post)
    requires a.id == "a" && b.id == "b" && b.repostOf == Some("a") && a.secretKey == Some("k")
  {
    var board := new Board();
    board.posts := map["a" := a, "b" := b];
    var flags := new ClientFlags();
    var page := new PostPage.PostPageSession("b");
    page.Load(board, flags, true, true, true);
    assert page.originalPost == Some(Backlink("a", a.title));

    var source := new PostPage.PostPageSession("a");
    source.Load(board, flags, true, true, true);
    source.secretKey := "k";
    var nav := source.HandleDelete(board, true);
    assert nav == ToHome && "a" !in board.posts && "b" in board.posts;

    var again := new PostPage.PostPageSession("b");
    again.Load(board, flags, true, true, true);
    assert again.post == Some(b) && again.originalPost == None;
  }
}

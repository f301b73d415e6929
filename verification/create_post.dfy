/**
 * The create page: the form, the per-input updates, seeding the form from an existing post ("repost"),
 * and submitting, which validates the title and normalises the form into the insert record.
 */
module CreatePost {
  import opened Wrappers
  import opened Text
  import opened Posts
  import opened Store

  /** The create form: every text input as typed, and the star widget's number (0 = no rating). */
  datatype PostForm = PostForm(
    title: string,
    content: string,
    imageUrl: string,
    gameTitle: string,
    rating: int,
    platform: string,
    genre: string,
    secretKey: string)

  const EmptyForm := PostForm("", "", "", "", 0, "", "", "")

  function Field(f: PostForm, n: FormField): string {
    match n
    case Title => f.title
    case Content => f.content
    case ImageUrl => f.imageUrl
    case GameTitle => f.gameTitle
    case Platform => f.platform
    case Genre => f.genre
    case SecretKey => f.secretKey
  }

  /** A change event of the input named `n`: that input takes the new value, nothing else changes. */
  function WithField(f: PostForm, n: FormField, v: string): (r: PostForm)
    ensures Field(r, n) == v
    ensures forall m :: m != n ==> Field(r, m) == Field(f, m)
    ensures r.rating == f.rating
  {
    match n
    case Title => f.(title := v)
    case Content => f.(content := v)
    case ImageUrl => f.(imageUrl := v)
    case GameTitle => f.(gameTitle := v)
    case Platform => f.(platform := v)
    case Genre => f.(genre := v)
    case SecretKey => f.(secretKey := v)
  }

  /**
   * The insert record built from the form. The title goes in as typed, untrimmed. Every other text
   * input, the secret included, goes in verbatim unless it is empty, in which case it becomes null;
   * a rating of 0 becomes null. There is no `repost_of` column in the record.
   */
  function Normalize(f: PostForm): (rec: NewPost)
    ensures rec.title == f.title
    ensures forall n :: n != Title ==> RecordColumn(rec, n) == NullIfEmpty(Field(f, n))
    ensures rec.rating == RatingOrNull(f.rating)
  {
    NewPost(f.title, NullIfEmpty(f.content), NullIfEmpty(f.imageUrl), NullIfEmpty(f.gameTitle),
            RatingOrNull(f.rating), NullIfEmpty(f.platform), NullIfEmpty(f.genre), NullIfEmpty(f.secretKey))
  }

  /**
   * The form after loading a post to repost: the title prefixed with "Re: ", every other column copied
   * with null read as the empty string (the rating as 0), and the secret cleared, so the new post never
   * inherits the source's secret.
   */
  function RepostSeed(src: Post): (f: PostForm)
    ensures f.title == "Re: " + src.title
    ensures f.secretKey == ""
    ensures forall n :: n != Title && n != SecretKey ==> Field(f, n) == TextColumn(src, n).GetOr("")
    ensures f.rating == src.rating.GetOr(0)
  {
    PostForm("Re: " + src.title, src.content.GetOr(""), src.imageUrl.GetOr(""), src.gameTitle.GetOr(""),
             src.rating.GetOr(0), src.platform.GetOr(""), src.genre.GetOr(""), "")
  }

  /** Reposting a post that was created from a form gives that form back, with the title prefixed and
      the secret cleared. */
  lemma RepostOfCreatedPost(f: PostForm, id: PostId, now: int)
    requires f.rating >= 0
    ensures RepostSeed(Created(Normalize(f), id, now)) == f.(title := "Re: " + f.title, secretKey := "")
  {
  }

  datatype RepostOutcome = BlankRepostId | RepostNotFound | RepostLoaded

  class CreateSession {
    var form: PostForm
    var repostPostId: string

    constructor ()
      ensures form == EmptyForm && repostPostId == ""
    {
      form := EmptyForm;
      repostPostId := "";
    }

    method HandleInputChange(n: FormField, v: string)
      modifies this`form
      ensures form == WithField(old(form), n, v)
    {
      form := WithField(form, n, v);
    }

    /** The star widget: only the rating changes. */
    method HandleRatingChange(rating: int)
      modifies this`form
      ensures form == old(form).(rating := rating)
    {
      form := form.(rating := rating);
    }

    /**
     * "Load Post": a blank id is refused without a lookup; a failed lookup leaves the form as it was;
     * a found post seeds the form.
     */
    method HandleRepost(board: Board, ok: bool) returns (outcome: RepostOutcome)
      modifies this`form
      ensures outcome == BlankRepostId <==> IsBlank(repostPostId)
      ensures outcome == RepostLoaded <==> !IsBlank(repostPostId) && ok && repostPostId in board.posts
      ensures outcome == RepostLoaded ==> form == RepostSeed(board.posts[repostPostId])
      ensures outcome != RepostLoaded ==> form == old(form)
    {
      if IsBlank(repostPostId) {
        return BlankRepostId;
      }
      var source := board.Fetch(repostPostId, ok);
      if source.None? {
        return RepostNotFound;
      }
      form := RepostSeed(source.value);
      outcome := RepostLoaded;
    }

    /**
     * "Create Post": a title that is blank once trimmed is refused without a store call. Otherwise the
     * normalised record is inserted; on success the browser goes to the new post, which has no lineage
     * and no upvotes. On a store error the browser stays and nothing is stored.
     */
    method HandleSubmit(board: Board, newId: PostId, now: int, ok: bool) returns (nav: Nav)
      requires board.Valid()
      modifies board
      ensures board.Valid() && board.comments == old(board.comments)
      ensures nav.ToPost? <==> !IsBlank(form.title) && ok && newId !in old(board.posts)
      ensures nav.ToPost? ==>
        && nav == ToPost(newId)
        && board.posts == old(board.posts)[newId := Created(Normalize(form), newId, now)]
        && board.posts[newId].repostOf.None? && board.posts[newId].upvotes == Some(0)
      ensures !nav.ToPost? ==> nav == Stay && board.posts == old(board.posts)
    {
      if IsBlank(form.title) {
        return Stay;
      }
      var inserted := board.Insert(Normalize(form), newId, now, ok);
      nav := if inserted.Some? then ToPost(inserted.value.id) else Stay;
    }
  }
}

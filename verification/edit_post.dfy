/**
 * The edit page: loading a post into the form, the one-way `verified` gate opened by the post's
 * secret, the per-input updates, and saving, which writes the seven editable columns only.
 */
module EditPost {
  import opened Wrappers
  import opened Text
  import opened Posts
  import opened Store
  import CreatePost

  /** The edit form: the create form without the secret. */
  datatype EditForm = EditForm(
    title: string,
    content: string,
    imageUrl: string,
    gameTitle: string,
    rating: int,
    platform: string,
    genre: string)

  const EmptyEditForm := EditForm("", "", "", "", 0, "", "")

  function Field(f: EditForm, n: FormField): string
    requires n != SecretKey
  {
    match n
    case Title => f.title
    case Content => f.content
    case ImageUrl => f.imageUrl
    case GameTitle => f.gameTitle
    case Platform => f.platform
    case Genre => f.genre
  }

  /** A change event of the input named `n`: that input takes the new value, nothing else changes. */
  function WithField(f: EditForm, n: FormField, v: string): (r: EditForm)
    requires n != SecretKey
    ensures Field(r, n) == v
    ensures forall m :: m != SecretKey && m != n ==> Field(r, m) == Field(f, m)
    ensures r.rating == f.rating
  {
    match n
    case Title => f.(title := v)
    case Content => f.(content := v)
    case ImageUrl => f.(imageUrl := v)
    case GameTitle => f.(gameTitle := v)
    case Platform => f.(platform := v)
    case Genre => f.(genre := v)
  }

  /** The form a loaded post fills: each text column, null read as the empty string, and the rating,
      null read as 0. */
  function ToForm(p: Post): (f: EditForm)
    ensures forall n :: n != SecretKey ==> Field(f, n) == TextColumn(p, n).GetOr("")
    ensures f.rating == p.rating.GetOr(0)
  {
    EditForm(p.title, p.content.GetOr(""), p.imageUrl.GetOr(""), p.gameTitle.GetOr(""),
             p.rating.GetOr(0), p.platform.GetOr(""), p.genre.GetOr(""))
  }

  /** The update payload: the title as typed, the other texts null when empty and verbatim otherwise,
      a rating of 0 as null. */
  function UpdatePayload(f: EditForm): (u: PostUpdate)
    ensures forall n :: n != SecretKey && n != Title ==> UpdateColumn(u, n) == NullIfEmpty(Field(f, n))
    ensures u.title == f.title
    ensures u.rating == RatingOrNull(f.rating)
  {
    PostUpdate(f.title, NullIfEmpty(f.content), NullIfEmpty(f.imageUrl), NullIfEmpty(f.gameTitle),
               RatingOrNull(f.rating), NullIfEmpty(f.platform), NullIfEmpty(f.genre))
  }

  /** A row as the pages themselves write it: the optional texts the edit form round-trips are null or
      non-empty, and the rating is null or positive. The secret is not part of the form. */
  ghost predicate Canonical(p: Post) {
    && (forall n :: n != Title && n != SecretKey ==> TextColumn(p, n) != Some(""))
    && (p.rating.Some? ==> p.rating.value > 0)
  }

  /** Loading a canonical post and saving the form untouched writes back exactly what was there. */
  lemma LoadThenSaveKeepsPost(p: Post)
    requires Canonical(p)
    ensures Updated(p, UpdatePayload(ToForm(p))) == p
  {
    var q := Updated(p, UpdatePayload(ToForm(p)));
    forall n | n != SecretKey && n != Title ensures TextColumn(q, n) == TextColumn(p, n) {
      assert TextColumn(q, n) == UpdateColumn(UpdatePayload(ToForm(p)), n);
    }
    assert q.content == p.content by { assert TextColumn(q, Content) == TextColumn(p, Content); }
    assert q.imageUrl == p.imageUrl by { assert TextColumn(q, ImageUrl) == TextColumn(p, ImageUrl); }
    assert q.gameTitle == p.gameTitle by { assert TextColumn(q, GameTitle) == TextColumn(p, GameTitle); }
    assert q.platform == p.platform by { assert TextColumn(q, Platform) == TextColumn(p, Platform); }
    assert q.genre == p.genre by { assert TextColumn(q, Genre) == TextColumn(p, Genre); }
  }

  /** Saving a form and loading the post again gives the same form back, for any star rating. */
  lemma SaveThenLoadKeepsForm(p: Post, f: EditForm)
    requires f.rating >= 0
    ensures ToForm(Updated(p, UpdatePayload(f))) == f
  {
  }

  /** A post created from a create form loads into the edit form with the same inputs, less the secret. */
  lemma CreatedPostLoadsBack(f: CreatePost.PostForm, id: PostId, now: int)
    requires f.rating >= 0
    ensures ToForm(Created(CreatePost.Normalize(f), id, now))
            == EditForm(f.title, f.content, f.imageUrl, f.gameTitle, f.rating, f.platform, f.genre)
  {
  }

  /**
   * The two secret checks disagree on a secret made only of white space: the post page accepts it and
   * opens the edit page, where the same secret is refused as blank before any lookup, so such a post
   * can be deleted by its owner but never edited.
   */
  lemma WhitespaceSecretPassesOnlyThePostPageGate(k: string)
    requires k != "" && AllWhitespace(k)
    ensures CanMutate(Some(k), k)
    ensures IsBlank(k)
  {
    BlankIffAllWhitespace(k);
  }

  datatype VerifyOutcome = BlankKey | KeyAccepted | KeyRejected | LookupFailed

  class EditSession {
    const id: PostId
    var form: EditForm
    var secretKey: string
    var verified: bool

    /** The page opens unverified, with an empty form. */
    constructor (id: PostId)
      ensures this.id == id && form == EmptyEditForm && secretKey == "" && !verified
    {
      this.id := id;
      form := EmptyEditForm;
      secretKey := "";
      verified := false;
    }

    /** Fetch the post into the form; if it cannot be fetched the browser goes to the listing. */
    method Load(board: Board, ok: bool) returns (nav: Nav)
      modifies this`form
      ensures ok && id in board.posts ==> nav == Stay && form == ToForm(board.posts[id])
      ensures !(ok && id in board.posts) ==> nav == ToHome && form == old(form)
    {
      var fetched := board.Fetch(id, ok);
      if fetched.None? {
        return ToHome;
      }
      form := ToForm(fetched.value);
      nav := Stay;
    }

    /**
     * "Verify Access": a candidate that is blank once trimmed is refused without a lookup. Otherwise
     * the post's secret is fetched and compared strictly, so a post whose secret is null is never
     * verified. `verified` only ever goes from false to true.
     */
    method HandleVerifyKey(board: Board, ok: bool) returns (outcome: VerifyOutcome)
      modifies this`verified
      ensures outcome == BlankKey <==> IsBlank(secretKey)
      ensures outcome == LookupFailed <==> !IsBlank(secretKey) && !(ok && id in board.posts)
      ensures outcome == KeyAccepted <==>
        !IsBlank(secretKey) && ok && id in board.posts && board.posts[id].secretKey == Some(secretKey)
      ensures verified <==> old(verified) || outcome == KeyAccepted
    {
      if IsBlank(secretKey) {
        return BlankKey;
      }
      var fetched := board.Fetch(id, ok);
      if fetched.None? {
        return LookupFailed;
      }
      if fetched.value.secretKey == Some(secretKey) {
        verified := true;
        outcome := KeyAccepted;
      } else {
        outcome := KeyRejected;
      }
    }

    method HandleInputChange(n: FormField, v: string)
      requires n != SecretKey
      modifies this`form
      ensures form == WithField(old(form), n, v)
    {
      form := WithField(form, n, v);
    }

    /** The star widget: only the rating changes. */
    method HandleRatingChange(rating: int)
      modifies this`form
      ensures form == old(form).(rating := rating)
    {
      form := form.(rating := rating);
    }

    /**
     * "Update Post", reachable only once verified (the form is rendered only then). A title that is
     * blank once trimmed is refused without a store call. Otherwise the seven editable columns are
     * written; the secret, the counter, the lineage and the creation time stay as they were. The
     * browser goes to the post when the store answers without error.
     */
    method HandleSubmit(board: Board, ok: bool) returns (nav: Nav)
      requires verified && board.Valid()
      modifies board
      ensures board.Valid() && board.comments == old(board.comments)
      ensures IsBlank(form.title) ==> nav == Stay && board.posts == old(board.posts)
      ensures !IsBlank(form.title) ==>
        && nav == (if ok then ToPost(id) else Stay)
        && board.posts == if ok && id in old(board.posts)
                          then old(board.posts)[id := Updated(old(board.posts)[id], UpdatePayload(form))]
                          else old(board.posts)
      ensures board.posts.Keys == old(board.posts).Keys
      ensures forall k :: k in board.posts ==>
        && board.posts[k].secretKey == old(board.posts[k].secretKey)
        && board.posts[k].upvotes == old(board.posts[k].upvotes)
        && board.posts[k].repostOf == old(board.posts[k].repostOf)
        && board.posts[k].createdAt == old(board.posts[k].createdAt)
    {
      if IsBlank(form.title) {
        return Stay;
      }
      var saved := board.Update(id, UpdatePayload(form), ok);
      nav := if saved then ToPost(id) else Stay;
    }
  }
}

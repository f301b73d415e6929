/**
 * The records the pages exchange with the store, the JavaScript truthiness rules the pages apply to
 * them, and the secret-key gate of the post page.
 */
module Posts {
  import opened Wrappers

  /** Post identifiers are opaque to the pages: they are shown, typed back in and compared as text. */
  type PostId = string

  /** Comments are numbered by the store in the order it receives them. */
  type CommentId = nat

  /** A row of the `posts` table. Nullable columns are `Option`s. */
  datatype Post = Post(
    id: PostId,
    title: string,
    content: Option<string>,
    imageUrl: Option<string>,
    gameTitle: Option<string>,
    rating: Option<int>,
    platform: Option<string>,
    genre: Option<string>,
    secretKey: Option<string>,
    upvotes: Option<int>,
    repostOf: Option<PostId>,
    createdAt: int)

  /** The eight columns the create page sends on insert; every other column takes the store's default. */
  datatype NewPost = NewPost(
    title: string,
    content: Option<string>,
    imageUrl: Option<string>,
    gameTitle: Option<string>,
    rating: Option<int>,
    platform: Option<string>,
    genre: Option<string>,
    secretKey: Option<string>)

  /** The seven columns the edit page sends on update. */
  datatype PostUpdate = PostUpdate(
    title: string,
    content: Option<string>,
    imageUrl: Option<string>,
    gameTitle: Option<string>,
    rating: Option<int>,
    platform: Option<string>,
    genre: Option<string>)

  /** A row of the `comments` table. */
  datatype Comment = Comment(id: CommentId, postId: PostId, content: string, authorName: string, createdAt: int)

  /** The `id, title` pair the post page fetches for its "Reposted from" link. */
  datatype Backlink = Backlink(id: PostId, title: string)

  /** Where a handler sends the browser: nowhere, the listing, a post page or an edit page. */
  datatype Nav = Stay | ToHome | ToPost(target: PostId) | ToEdit(target: PostId)

  /** The text inputs of the create and edit forms, by their `name` attribute. */
  datatype FormField = Title | Content | ImageUrl | GameTitle | Platform | Genre | SecretKey

  /** A text column of a row, by the name of the form input that edits it. The title is never null. */
  function TextColumn(p: Post, n: FormField): Option<string> {
    match n
    case Title => Some(p.title)
    case Content => p.content
    case ImageUrl => p.imageUrl
    case GameTitle => p.gameTitle
    case Platform => p.platform
    case Genre => p.genre
    case SecretKey => p.secretKey
  }

  /** A text column of an insert record, by form input name. */
  function RecordColumn(rec: NewPost, n: FormField): Option<string> {
    match n
    case Title => Some(rec.title)
    case Content => rec.content
    case ImageUrl => rec.imageUrl
    case GameTitle => rec.gameTitle
    case Platform => rec.platform
    case Genre => rec.genre
    case SecretKey => rec.secretKey
  }

  /** A text column of an update payload, by form input name; the payload has no secret. */
  function UpdateColumn(u: PostUpdate, n: FormField): Option<string>
    requires n != SecretKey
  {
    match n
    case Title => Some(u.title)
    case Content => u.content
    case ImageUrl => u.imageUrl
    case GameTitle => u.gameTitle
    case Platform => u.platform
    case Genre => u.genre
  }

  /** A nullable text column is truthy when it holds a non-empty string. */
  predicate TruthyText(v: Option<string>) {
    v.Some? && v.value != ""
  }

  /** A nullable number column is truthy when it holds a non-zero number. */
  predicate TruthyNumber(v: Option<int>) {
    v.Some? && v.value != 0
  }

  /** `s || null` on a form string: the empty string becomes null, anything else is kept verbatim. */
  function NullIfEmpty(s: string): (r: Option<string>)
    ensures r.None? <==> s == ""
    ensures r.Some? ==> r.value == s
  {
    if s == "" then None else Some(s)
  }

  /** `rating > 0 ? parseInt(rating) : null` on the star widget's number. */
  function RatingOrNull(rating: int): (r: Option<int>)
    ensures r.None? <==> rating <= 0
    ensures r.Some? ==> r.value == rating && TruthyNumber(r)
  {
    if rating > 0 then Some(rating) else None
  }

  /** The row the store creates from an insert record: a store-chosen id and timestamp, the column defaults
      for `upvotes` (0) and `repost_of` (null), and the eight sent columns. */
  function Created(rec: NewPost, id: PostId, now: int): Post {
    Post(id, rec.title, rec.content, rec.imageUrl, rec.gameTitle, rec.rating, rec.platform, rec.genre,
         rec.secretKey, Some(0), None, now)
  }

  /** The row after an update: the seven sent columns replaced. The owner's secret, the counter, the
      lineage, the identity and the creation time of the post are never touched. */
  function Updated(p: Post, u: PostUpdate): (q: Post)
    ensures q.id == p.id && q.secretKey == p.secretKey && q.upvotes == p.upvotes
    ensures q.repostOf == p.repostOf && q.createdAt == p.createdAt
  {
    p.(title := u.title, content := u.content, imageUrl := u.imageUrl, gameTitle := u.gameTitle,
       rating := u.rating, platform := u.platform, genre := u.genre)
  }

  /**
   * The post page's gate for edit and delete. It refuses when the stored secret is falsy or differs
   * from the candidate, so a post is mutable from this page only when it holds a non-empty secret and
   * the candidate is exactly that secret: a post without a secret can never be edited or deleted.
   */
  function CanMutate(stored: Option<string>, candidate: string): (ok: bool)
    ensures ok ==> stored == Some(candidate) && candidate != ""
    ensures stored == Some(candidate) && candidate != "" ==> ok
    ensures !TruthyText(stored) ==> !ok
  {
    !(!TruthyText(stored) || candidate != stored.value)
  }
}

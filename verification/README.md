# GameBoxd post lifecycle, modelled in Dafny

GameBoxd is a community board for video-game reviews. Users create posts, browse and filter them,
comment, upvote once per browser, and "repost" an existing review into a new one. A post is owned
through a secret typed in at creation rather than through an account: the same secret must be typed
again to edit or delete it.

This project models the logic inside the four page handlers that carry that lifecycle, with the
remote store and the browser's local storage made explicit:

- `wrappers.dfy` (`Wrappers`): `Option`, the model of every nullable column and piece of page state.
- `text.dfy` (`Text`): the string operations the pages use. `toLowerCase` is ASCII case folding,
  `includes` is a substring scan (`Includes`, proved equal to an offset-based definition), and
  `!s.trim()` is `IsBlank` (proved equal to "every character is ECMAScript white space").
- `posts.dfy` (`Posts`): the `posts` and `comments` rows, the insert record and the update payload,
  JavaScript truthiness on nullable columns, `'' → null` and `0 → null` normalisation, and the
  secret-key gate of the post page (`CanMutate`).
- `store.dfy` (`Store`): the store as a class `Board` with a `posts` map and a `comments` sequence.
  Every store call takes an `ok` flag; when it is false the call reports an error and applies nothing.
  The id and timestamp the store assigns are parameters. `ClientFlags` is local storage: the set of
  post ids with an `upvoted_<id>` key.
- `listing.dfy` (`Listing`): the listing page. `Filter` is the client-side filter. `NextSort` is the
  sort toggle. The class `HomePage` holds the page state (fetched posts, four filters, sort field and
  direction) and its handlers.
- `post_page.dfy` (`PostPage`): the post page as the class `PostPageSession`. It covers loading with
  the repost backlink, the once-per-browser upvote, adding comments, and the gated edit and delete.
- `create_post.dfy` (`CreatePost`): the create form, per-input updates, repost seeding, and submission.
- `edit_post.dfy` (`EditPost`): the edit form, record-to-form loading, the one-way `verified` gate,
  and the update payload. It also holds the load/save round trips.
- `scenarios.dfy` (`Scenarios`): client methods that drive the pages through three cases. A post with
  secret "x" refuses "y", accepts "x" and keeps "x" after an edit. A second upvote in the same browser
  is refused. A repost loses its backlink silently once its source is deleted.

Three behaviours of the code are easy to expect otherwise:

- One might expect a post created without a secret to be open to anyone. The code refuses both edit
  and delete for it, because the post page's gate requires a non-empty stored secret (`CanMutate`) and
  the edit page requires a non-blank candidate equal to the stored secret.
- One might expect a repost to record the post it came from in `repost_of`. The create page never
  writes that column (`Normalize` has no such field, and `Store.Board.Insert` leaves it null). So the
  backlink appears only for rows whose `repost_of` was set outside these pages.
- One might expect an edit page that cannot fetch its post to return to that post. The code goes to
  the listing (`EditPost.EditSession.Load` returns `ToHome`).

The two secret checks also disagree with each other. A secret made only of white space is stored
verbatim. The post page accepts it and opens the edit page. There the same secret is refused as blank
before any lookup (`EditPost.WhitespaceSecretPassesOnlyThePostPageGate`). Such a post can be deleted
by its owner but never edited.

## Model

| member | source | states |
|---|---|---|
| `Text.IncludesIffOccurs` | src/pages/HomePage.jsx:58-59 | the `includes` scan holds exactly when the needle occurs at some offset of the haystack |
| `Text.BlankIffAllWhitespace` | src/pages/CreatePost.jsx:83 | a text is empty after `trim` exactly when every character is white space |
| `Posts.NullIfEmpty` | src/pages/CreatePost.jsx:94-96 | a form string becomes null exactly when it is empty, otherwise it is kept verbatim |
| `Posts.RatingOrNull` | src/pages/CreatePost.jsx:97 | the star number becomes null exactly when it is not positive, otherwise it is kept and is truthy |
| `Posts.Updated` | src/pages/EditPost.jsx:110-118 | an update never changes a post's id, secret, upvotes, `repost_of` or creation time |
| `Posts.CanMutate` | src/pages/PostPage.jsx:119-122 | edit or delete passes exactly when the stored secret equals the candidate and is non-empty; a null or empty secret never passes |
| `Store.CommentsOf` | src/pages/PostPage.jsx:59-68 | a post's thread holds exactly the stored comments with that `post_id`, and is no longer than the table |
| `Store.CommentsOfAppend` | src/pages/PostPage.jsx:100-110 | inserting a comment appends it to its own post's thread and leaves every other thread alone |
| `Store.Board.Fetch` | src/pages/PostPage.jsx:40-46 | a single-row fetch succeeds exactly when the store answers and the id exists, and returns that row |
| `Store.Board.FetchComments` | src/pages/PostPage.jsx:61-68 | a thread fetch succeeds exactly when the store answers, and returns the post's comments |
| `Store.Board.Insert` | src/pages/CreatePost.jsx:90-104 | an insert adds the created row under the new id, with zero upvotes and no `repost_of`; it fails and changes nothing on an error or a taken id |
| `Store.Board.Update` | src/pages/EditPost.jsx:108-121 | an update replaces the seven sent columns of an existing row, reports success whenever the store answers, and changes nothing on an error |
| `Store.Board.SetUpvotes` | src/pages/PostPage.jsx:81-86 | the counter write sets only `upvotes` of an existing row, and changes nothing on an error |
| `Store.Board.Delete` | src/pages/PostPage.jsx:124-130 | a delete removes only that post; comments and reposts stay (no cascade) |
| `Store.Board.InsertComment` | src/pages/PostPage.jsx:100-109 | a comment insert appends the comment under the next id, or changes nothing on an error |
| `Listing.Filter` | src/pages/HomePage.jsx:57-66 | a post is shown exactly when it was fetched and matches search, platform, genre and minimum rating; the shown list is no longer than the fetched one |
| `Listing.FilterIsSubsequence` | src/pages/HomePage.jsx:57 | the shown list is an order-preserving subsequence of the fetched list |
| `Listing.FilterCounts` | src/pages/HomePage.jsx:57-66 | each post is shown as many times as it was fetched when it matches, and never otherwise |
| `Listing.FilterKeepsOrder` | src/pages/HomePage.jsx:43-57 | any order the store returned the posts in is still the order of the shown list |
| `Listing.EmptySearchMatchesEvery` | src/pages/HomePage.jsx:58-59 | the empty search term matches every post |
| `Listing.EmptySearchFiltersByOthers` | src/pages/HomePage.jsx:57-66 | with an empty search box a post is shown exactly when it was fetched and passes the platform, genre and minimum-rating filters |
| `Listing.NoFiltersKeepAll` | src/pages/HomePage.jsx:58-63 | with the empty search term and no other filter, every fetched post is shown |
| `Listing.MinRatingHidesUnrated` | src/pages/HomePage.jsx:63 | with a minimum rating set, a post whose rating is null or 0 is never shown |
| `Listing.NextSort` | src/pages/HomePage.jsx:68-75 | the chosen field becomes the sort field; the same field flips the direction, a new field sorts descending |
| `Listing.NextSortTwice` | src/pages/HomePage.jsx:68-75 | choosing the current field twice restores the sort state; choosing a new field twice ends ascending |
| `Listing.HomePage.constructor` | src/pages/HomePage.jsx:8-15 | the listing opens with no posts, no filter, sorted by creation date descending |
| `Listing.HomePage.ActiveFilterCount` | src/pages/HomePage.jsx:146 | the badge counts at most four filters, and is zero exactly when no filter is set |
| `Listing.HomePage.HasActiveFilters` | src/pages/HomePage.jsx:84 | some filter is active exactly when the badge count is positive; with none active every fetched post is shown |
| `Listing.HomePage.ReceivePosts` | src/pages/HomePage.jsx:48-51 | a successful fetch replaces the posts; an error keeps the previous list |
| `Listing.HomePage.HandleSortChange` | src/pages/HomePage.jsx:68-75 | the sort state becomes the toggle of the old state; nothing else changes |
| `Listing.HomePage.ClearFilters` | src/pages/HomePage.jsx:77-82 | all four filters become empty, the sort state is untouched, and every fetched post is shown |
| `PostPage.AuthorOrAnonymous` | src/pages/PostPage.jsx:105 | a typed name is stored as it is and an empty one is stored as "Anonymous", so the stored author is never empty |
| `PostPage.ResolveBacklink` | src/pages/PostPage.jsx:12-22 | a backlink exists exactly when `repost_of` is a non-empty id and its lookup succeeds, and then names that post's id and title |
| `PostPage.PostPageSession.constructor` | src/pages/PostPage.jsx:10-29 | the page opens with no post, no backlink, no comments, empty inputs and not upvoted |
| `PostPage.PostPageSession.Load` | src/pages/PostPage.jsx:31-72 | `hasUpvoted` equals the presence of the local flag; the post, its backlink and the thread are set on success and kept on failure |
| `PostPage.PostPageSession.HandleUpvote` | src/pages/PostPage.jsx:74-93 | an upvoted browser makes no store call; otherwise the shown count (null as 0) plus one is written, and the view and both flags change only when the store accepts it |
| `PostPage.PostPageSession.HandleAddComment` | src/pages/PostPage.jsx:95-116 | a blank comment makes no insert; a stored comment is appended at the end of the thread and both inputs are cleared; an error changes nothing |
| `PostPage.PostPageSession.HandleDelete` | src/pages/PostPage.jsx:118-135 | without passing the gate nothing is deleted; past it the post is deleted and the browser goes home, or stays on an error |
| `PostPage.PostPageSession.HandleEdit` | src/pages/PostPage.jsx:137-143 | the browser goes to the edit page exactly when the gate passes, which needs the owner controls to be rendered |
| `CreatePost.WithField` | src/pages/CreatePost.jsx:66-71 | a change event sets the named input and leaves every other input and the rating unchanged |
| `CreatePost.Normalize` | src/pages/CreatePost.jsx:92-101 | the insert record keeps the title as typed, turns each other empty text (the secret included) into null and keeps it verbatim otherwise, and turns a rating of 0 into null |
| `CreatePost.RepostSeed` | src/pages/CreatePost.jsx:48-57 | a repost form has the title prefixed with "Re: ", the other columns copied with null as empty, and an empty secret |
| `CreatePost.RepostOfCreatedPost` | src/pages/CreatePost.jsx:48-57 | reposting a post created from a form gives that form back, with the title prefixed and the secret cleared |
| `CreatePost.CreateSession.constructor` | src/pages/CreatePost.jsx:14-24 | the create form opens empty with rating 0 |
| `CreatePost.CreateSession.HandleInputChange` | src/pages/CreatePost.jsx:66-71 | only the named input of the form changes |
| `CreatePost.CreateSession.HandleRatingChange` | src/pages/CreatePost.jsx:73-78 | only the rating of the form changes |
| `CreatePost.CreateSession.HandleRepost` | src/pages/CreatePost.jsx:29-64 | a blank id makes no lookup; a failed lookup keeps the form; a found post seeds the form |
| `CreatePost.CreateSession.HandleSubmit` | src/pages/CreatePost.jsx:80-113 | a blank title makes no insert; otherwise the normalised record is stored and the browser goes to the new post, which has no lineage and no upvotes |
| `EditPost.WithField` | src/pages/EditPost.jsx:84-89 | a change event sets the named input and leaves every other input and the rating unchanged |
| `EditPost.ToForm` | src/pages/EditPost.jsx:41-49 | the loaded form holds each text column with null as empty, and the rating with null as 0 |
| `EditPost.UpdatePayload` | src/pages/EditPost.jsx:110-118 | the payload keeps the title as typed, turns each other empty text into null and keeps it verbatim otherwise, and turns a rating of 0 into null |
| `EditPost.LoadThenSaveKeepsPost` | src/pages/EditPost.jsx:41-118 | loading a post whose texts are null or non-empty and whose rating is null or positive, then saving unchanged, writes back the same row |
| `EditPost.SaveThenLoadKeepsForm` | src/pages/EditPost.jsx:110-118 | saving a form with a non-negative rating and loading the post again gives the same form |
| `EditPost.CreatedPostLoadsBack` | src/pages/EditPost.jsx:41-49 | a post created from a create form loads into the edit form with the same inputs, less the secret |
| `EditPost.WhitespaceSecretPassesOnlyThePostPageGate` | src/pages/EditPost.jsx:59-62 | a non-empty secret of only white space passes the post page's gate but is refused as blank by the edit page |
| `EditPost.EditSession.constructor` | src/pages/EditPost.jsx:12-22 | the edit page opens unverified with an empty form |
| `EditPost.EditSession.Load` | src/pages/EditPost.jsx:31-56 | a fetched post fills the form; a failed fetch sends the browser to the listing and keeps the form |
| `EditPost.EditSession.HandleVerifyKey` | src/pages/EditPost.jsx:58-82 | a blank candidate makes no lookup; `verified` becomes true exactly when the fetched secret strictly equals the candidate, and never goes back to false |
| `EditPost.EditSession.HandleInputChange` | src/pages/EditPost.jsx:84-89 | only the named input of the form changes |
| `EditPost.EditSession.HandleRatingChange` | src/pages/EditPost.jsx:91-96 | only the rating of the form changes |
| `EditPost.EditSession.HandleSubmit` | src/pages/EditPost.jsx:98-130 | callable only once verified; a blank title makes no store call; otherwise the seven columns are written and the secret, upvotes, `repost_of` and creation time of every post stay as they were |

## Left out

- Store queries and ordering: the store is the abstract `Board`. The ordering the listing asks for
  (sort field and direction) is applied by the store, so `Listing.HomePage.ReceivePosts` takes the
  store's answer as a parameter. `Listing.FilterKeepsOrder` shows that any such order survives
  filtering.
- Comment order: the store's `created_at` ascending order is modelled as the order in which comments
  were inserted.
- Identifier text: ids are opaque strings, and the repost box looks a post up by exact text. The
  store's conversion of typed text to the id column's type is not modelled.
- `minRating` is held as an optional integer. The select offers only "" and "1" to "10", so the
  string parsing is not modelled. The rating's parse on submit is the identity on the integer the star
  widget produced.
- Case folding is ASCII only; `toLowerCase` on other letters is not modelled.
- Input setters: the `onChange` handlers of the search box, the three filter selects, the secret
  inputs and the repost id box are plain assignments to the corresponding fields. The model assigns
  those fields directly instead of having one method each.
- Loading and saving spinners, `showFilters`, `showDeleteConfirm` and `repostLoading` change only what
  is rendered.
- Concurrency: the handlers run one at a time. The lost-update race on `upvotes` between browsers is
  not modelled.
- Rendering, theme switching, share and clipboard, date formatting, star rendering, alerts and
  console logging are presentation.
- The post page's repost button only navigates to the create page with a `repost` query parameter.
  The create page reads that parameter and never uses it, so the navigation is not modelled.
- `src/components/PostCard.jsx`, `src/components/Navbar.jsx` and `src/App.jsx` are presentation and
  routing, and are not part of this model.
- `PostPage.PostPageSession.HandleUpvote` requires a loaded post, because the upvote button is
  rendered only once the post is shown. `EditPost.EditSession.HandleSubmit` requires `verified`,
  because the edit form is rendered only then.

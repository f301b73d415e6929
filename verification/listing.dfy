/**
 * The listing page: the client-side filter over the fetched posts, the sort-state toggle that drives the
 * store's ordering, and the bookkeeping of which filters are active.
 */
module Listing {
  import opened Wrappers
  import opened Text
  import opened Posts

  datatype SortField = CreatedAt | Upvotes | Rating
  datatype SortOrder = Asc | Desc
  datatype SortState = SortState(field: SortField, order: SortOrder)

  /** The four filter inputs. Empty strings and a `None` minimum rating mean "not set"; the minimum-rating
      select only offers 1 to 10. */
  datatype Query = Query(searchTerm: string, platform: string, genre: string, minRating: Option<int>)

  const NoFilters := Query("", "", "", None)

  /** The lower-cased search term occurs in the lower-cased title, or in the lower-cased game title
      when that is a non-empty string. */
  predicate MatchesSearch(term: string, p: Post) {
    || Includes(ToLower(p.title), ToLower(term))
    || (TruthyText(p.gameTitle) && Includes(ToLower(p.gameTitle.value), ToLower(term)))
  }

  predicate MatchesPlatform(platform: string, p: Post) {
    platform == "" || p.platform == Some(platform)
  }

  predicate MatchesGenre(genre: string, p: Post) {
    genre == "" || p.genre == Some(genre)
  }

  /** With a minimum set, the rating must be truthy (neither null nor 0) and at least the minimum. */
  predicate MatchesRating(minRating: Option<int>, p: Post) {
    minRating.None? || (TruthyNumber(p.rating) && p.rating.value >= minRating.value)
  }

  predicate Matches(q: Query, p: Post) {
    && MatchesSearch(q.searchTerm, p)
    && MatchesPlatform(q.platform, p)
    && MatchesGenre(q.genre, p)
    && MatchesRating(q.minRating, p)
  }

  /** The posts the page shows: those of the fetched list that match, in the fetched order. */
  function Filter(posts: seq<Post>, q: Query): (r: seq<Post>)
    ensures |r| <= |posts|
    ensures forall p :: p in r <==> p in posts && Matches(q, p)
  {
    if posts == [] then []
    else if Matches(q, posts[0]) then [posts[0]] + Filter(posts[1..], q)
    else Filter(posts[1..], q)
  }

  ghost predicate IsSubsequence<T>(a: seq<T>, b: seq<T>)
    decreases |b|
  {
    a == [] || (b != [] && ((a[0] == b[0] && IsSubsequence(a[1..], b[1..])) || IsSubsequence(a, b[1..])))
  }

  /** The shown list is an order-preserving selection from the fetched list. */
  lemma {:induction false} FilterIsSubsequence(posts: seq<Post>, q: Query)
    ensures IsSubsequence(Filter(posts, q), posts)
  {
    if posts != [] {
      FilterIsSubsequence(posts[1..], q);
      if Matches(q, posts[0]) {
        assert ([posts[0]] + Filter(posts[1..], q))[1..] == Filter(posts[1..], q);
      }
    }
  }

  /** Each post is shown exactly as often as it was fetched when it matches, and never otherwise. */
  lemma {:induction false} FilterCounts(posts: seq<Post>, q: Query, p: Post)
    ensures multiset(Filter(posts, q))[p] == if Matches(q, p) then multiset(posts)[p] else 0
  {
    if posts != [] {
      FilterCounts(posts[1..], q, p);
      assert posts == [posts[0]] + posts[1..];
    }
  }

  /** `before` holds of every earlier-later pair of `s`: the shape of a list the store has ordered. */
  ghost predicate Ordered(s: seq<Post>, before: (Post, Post) -> bool) {
    forall i, j :: 0 <= i < j < |s| ==> before(s[i], s[j])
  }

  /** Filtering keeps whatever order the store returned the posts in. */
  lemma {:induction false} FilterKeepsOrder(posts: seq<Post>, q: Query, before: (Post, Post) -> bool)
    requires Ordered(posts, before)
    ensures Ordered(Filter(posts, q), before)
  {
    if posts != [] {
      var rest := posts[1..];
      assert Ordered(rest, before) by {
        forall i, j | 0 <= i < j < |rest| ensures before(rest[i], rest[j]) {
          assert rest[i] == posts[i + 1] && rest[j] == posts[j + 1];
        }
      }
      FilterKeepsOrder(rest, q, before);
      if Matches(q, posts[0]) {
        var r := Filter(posts, q);
        forall i, j | 0 <= i < j < |r| ensures before(r[i], r[j]) {
          if i == 0 {
            assert r[j] in rest;
            var k :| 0 <= k < |rest| && rest[k] == r[j];
            assert posts[k + 1] == r[j];
          } else {
            assert r[i] == Filter(rest, q)[i - 1] && r[j] == Filter(rest, q)[j - 1];
          }
        }
      }
    }
  }

  /** The empty search term is a substring of every lower-cased title, so it matches every post. */
  lemma EmptySearchMatchesEvery(p: Post)
    ensures MatchesSearch("", p)
  {
    assert ToLower("") == "";
  }

  /** With an empty search box, a post is shown exactly when it was fetched and passes the platform,
      genre and minimum-rating filters, whatever those are. */
  lemma EmptySearchFiltersByOthers(posts: seq<Post>, q: Query)
    requires q.searchTerm == ""
    ensures forall p :: p in Filter(posts, q) <==>
      p in posts && MatchesPlatform(q.platform, p) && MatchesGenre(q.genre, p) && MatchesRating(q.minRating, p)
  {
    forall p | p in posts ensures MatchesSearch(q.searchTerm, p) {
      EmptySearchMatchesEvery(p);
    }
  }

  /** With no filter set every post is shown. */
  lemma {:induction false} NoFiltersKeepAll(posts: seq<Post>)
    ensures Filter(posts, NoFilters) == posts
  {
    if posts != [] {
      EmptySearchMatchesEvery(posts[0]);
      assert Matches(NoFilters, posts[0]);
      NoFiltersKeepAll(posts[1..]);
      assert posts == [posts[0]] + posts[1..];
    }
  }

  /** With a minimum rating set, a post whose rating is null or 0 is never shown. */
  lemma MinRatingHidesUnrated(posts: seq<Post>, q: Query, p: Post)
    requires q.minRating.Some?
    requires p.rating == None || p.rating == Some(0)
    ensures p !in Filter(posts, q)
  {
  }

  /** The sort toggle: choosing the current field flips the direction; choosing another field selects
      it, descending. */
  function NextSort(s: SortState, field: SortField): (r: SortState)
    ensures r.field == field
    ensures field == s.field ==> r.order != s.order
    ensures field != s.field ==> r.order == Desc
  {
    if field == s.field then SortState(field, if s.order == Asc then Desc else Asc)
    else SortState(field, Desc)
  }

  /** Choosing the same field twice restores the state; choosing a new field twice ends ascending. */
  lemma NextSortTwice(s: SortState, field: SortField)
    ensures field == s.field ==> NextSort(NextSort(s, field), field) == s
    ensures field != s.field ==> NextSort(NextSort(s, field), field) == SortState(field, Asc)
  {
  }

  /** The page state the listing keeps: the fetched posts, the filters and the sort state. */
  class HomePage {
    var posts: seq<Post>
    var searchTerm: string
    var sortBy: SortField
    var sortOrder: SortOrder
    var selectedPlatform: string
    var selectedGenre: string
    var minRating: Option<int>

    /** The page opens with nothing fetched, no filter and the newest posts first. */
    constructor ()
      ensures posts == [] && CurrentQuery() == NoFilters && CurrentSort() == SortState(CreatedAt, Desc)
    {
      posts := [];
      searchTerm := "";
      sortBy := CreatedAt;
      sortOrder := Desc;
      selectedPlatform := "";
      selectedGenre := "";
      minRating := None;
    }

    function CurrentQuery(): Query
      reads this
    {
      Query(searchTerm, selectedPlatform, selectedGenre, minRating)
    }

    function CurrentSort(): SortState
      reads this
    {
      SortState(sortBy, sortOrder)
    }

    /** The list the page renders and counts. */
    function FilteredPosts(): seq<Post>
      reads this
    {
      Filter(posts, CurrentQuery())
    }

    /** The number on the filter badge: how many of the four filter values are truthy. */
    function ActiveFilterCount(): (n: nat)
      reads this
      ensures n <= 4
      ensures n == 0 <==> CurrentQuery() == NoFilters
    {
      (if selectedPlatform != "" then 1 else 0) + (if selectedGenre != "" then 1 else 0)
      + (if minRating.Some? then 1 else 0) + (if searchTerm != "" then 1 else 0)
    }

    /** Some filter value is truthy. */
    function HasActiveFilters(): (b: bool)
      reads this
      ensures b <==> ActiveFilterCount() > 0
      ensures !b ==> FilteredPosts() == posts
    {
      NoFiltersKeepAll(posts);
      selectedPlatform != "" || selectedGenre != "" || minRating.Some? || searchTerm != ""
    }

    /** The store answered the ordered fetch: an error keeps the previous list. */
    method ReceivePosts(response: Option<seq<Post>>)
      modifies this`posts
      ensures posts == if response.Some? then response.value else old(posts)
    {
      if response.Some? {
        posts := response.value;
      }
    }

    method HandleSortChange(field: SortField)
      modifies this`sortBy, this`sortOrder
      ensures CurrentSort() == NextSort(old(CurrentSort()), field)
    {
      if field == sortBy {
        sortOrder := if sortOrder == Asc then Desc else Asc;
      } else {
        sortBy := field;
        sortOrder := Desc;
      }
    }

    /** Empties the four filters, leaves the sort state alone, and so shows every fetched post. */
    method ClearFilters()
      modifies this`selectedPlatform, this`selectedGenre, this`minRating, this`searchTerm
      ensures CurrentQuery() == NoFilters && !HasActiveFilters()
      ensures FilteredPosts() == posts
    {
      selectedPlatform := "";
      selectedGenre := "";
      minRating := None;
      searchTerm := "";
      NoFiltersKeepAll(posts);
    }
  }
}

/** The post-feed hook of src/hooks/usePosts.js: the page accumulator (`posts`, `page`,
    `hasMore`) that `fetchPosts` and `loadMore` advance, and the optimistic vote and save
    updates the hook applies to its own copy of the posts before asking the store. */
module PostsHook {
  import opened Wrappers
  import opened Seqs
  import opened Posts
  import opened Toasts

  /** The page size the hook always asks for. */
  const PageSize := 10

  // ---------------------------------------------------------------------------
  // The optimistic updates

  /** The hook's own copy of the vote rule: local counters are undone, then the requested
      vote is applied unless it repeats the current one. It agrees with the store's rule. */
  function OptimisticVote(post: Post, voteType: Vote): (q: Post)
    ensures q == Voted(post, voteType)
  {
    var currentVote := post.userVote;
    var upvotes := if currentVote == Up then post.upvotes - 1 else post.upvotes;
    var downvotes := if currentVote == Down then post.downvotes - 1 else post.downvotes;
    if voteType == Up && currentVote != Up then
      post.(upvotes := upvotes + 1, downvotes := downvotes, userVote := voteType)
    else if voteType == Down && currentVote != Down then
      post.(upvotes := upvotes, downvotes := downvotes + 1, userVote := voteType)
    else
      post.(upvotes := upvotes, downvotes := downvotes, userVote := NoVote)
  }

  /** The vote updater: every post of the list with the identifier is voted on. */
  function VoteInList(list: seq<Post>, id: int, voteType: Vote): (r: seq<Post>)
    ensures |r| == |list| && IdsOf(r) == IdsOf(list)
    ensures forall k :: 0 <= k < |list| && list[k].id != id ==> r[k] == list[k]
  {
    seq(|list|, k requires 0 <= k < |list| =>
      if list[k].id == id then OptimisticVote(list[k], voteType) else list[k])
  }

  /** The save updater: every post of the list with the identifier has `saved` flipped. */
  function SaveInList(list: seq<Post>, id: int): (r: seq<Post>)
    ensures |r| == |list| && IdsOf(r) == IdsOf(list)
    ensures forall k :: 0 <= k < |list| && list[k].id != id ==> r[k] == list[k]
  {
    seq(|list|, k requires 0 <= k < |list| =>
      if list[k].id == id then list[k].(saved := !list[k].saved) else list[k])
  }

  /** Saving twice restores the list. */
  lemma SaveInListTwice(list: seq<Post>, id: int)
    ensures SaveInList(SaveInList(list, id), id) == list
  {
  }

  /** On a list without repeated identifiers the optimistic updates are exactly the
      store's `vote` and `toggleSave` applied to the list. */
  lemma UpdatersAreServiceRules(list: seq<Post>, id: int, voteType: Vote)
    requires UniqueIds(list)
    ensures VoteInList(list, id, voteType) == AfterVote(list, id, voteType)
    ensures SaveInList(list, id) == AfterSave(list, id)
  {
    match FindIndex(list, id)
    case None =>
    case Some(i) =>
      assert forall k :: 0 <= k < |list| && k != i ==> list[k].id != id;
  }

  /** Every post of the list is the store's current record for its identifier: the hook's
      copy is a faithful replica of what the store holds. */
  predicate Mirrors(list: seq<Post>, store: seq<Post>) {
    forall k :: 0 <= k < |list| ==> FindById(store, list[k].id) == Ok(list[k])
  }

  lemma MirrorsAppend(a: seq<Post>, b: seq<Post>, store: seq<Post>)
    requires Mirrors(a, store) && Mirrors(b, store)
    ensures Mirrors(a + b, store)
  {
    forall k | 0 <= k < |a + b| ensures FindById(store, (a + b)[k].id) == Ok((a + b)[k]) {
      if k >= |a| {
        assert (a + b)[k] == b[k - |a|];
      }
    }
  }

  /** Every page the store serves is a replica of the store. */
  lemma ListingMirrors(store: seq<Post>, q: Query, scores: Scores)
    requires UniqueIds(store)
    ensures Mirrors(Listing(store, q, scores).posts, store)
  {
    var full := Ranked(store, q, scores);
    var w := Working(store, q.community);
    var page := Listing(store, q, scores).posts;
    PageMembers(full, q.page, q.limit);
    forall k | 0 <= k < |page| ensures FindById(store, page[k].id) == Ok(page[k]) {
      assert page[k] in multiset(w);
      var j :| 0 <= j < |w| && w[j] == page[k];
      var m :| 0 <= m < |store| && store[m] == page[k];
      FindOwnId(store, m);
    }
  }

  /** The optimistic vote keeps the replica in step with the store's vote. */
  lemma {:induction false} VoteKeepsMirror(list: seq<Post>, store: seq<Post>, id: int, voteType: Vote)
    requires Mirrors(list, store)
    ensures Mirrors(VoteInList(list, id, voteType), AfterVote(store, id, voteType))
  {
    var after := AfterVote(store, id, voteType);
    var r := VoteInList(list, id, voteType);
    forall k | 0 <= k < |r| ensures FindById(after, r[k].id) == Ok(r[k]) {
      FindIndexSameIds(after, store, list[k].id);
      var j := FindIndex(store, list[k].id).value;
      assert store[j] == list[k];
      if list[k].id == id {
        assert after[j] == Voted(store[j], voteType);
      } else {
        assert FindIndex(store, id) != Some(j);
        assert after[j] == store[j];
      }
    }
  }

  /** The optimistic save keeps the replica in step with the store's `toggleSave`. */
  lemma {:induction false} SaveKeepsMirror(list: seq<Post>, store: seq<Post>, id: int)
    requires Mirrors(list, store)
    ensures Mirrors(SaveInList(list, id), AfterSave(store, id))
  {
    var after := AfterSave(store, id);
    var r := SaveInList(list, id);
    forall k | 0 <= k < |r| ensures FindById(after, r[k].id) == Ok(r[k]) {
      FindIndexSameIds(after, store, list[k].id);
      var j := FindIndex(store, list[k].id).value;
      assert store[j] == list[k];
      if list[k].id == id {
        assert after[j] == store[j].(saved := !store[j].saved);
      } else {
        assert FindIndex(store, id) != Some(j);
        assert after[j] == store[j];
      }
    }
  }

  /** A post the store lacks is in no replica, so the optimistic updates leave it alone. */
  lemma UnknownPostUntouched(list: seq<Post>, store: seq<Post>, id: int, voteType: Vote)
    requires Mirrors(list, store) && FindIndex(store, id).None?
    ensures VoteInList(list, id, voteType) == list && SaveInList(list, id) == list
  {
    assert forall k :: 0 <= k < |list| ==> list[k].id != id by {
      forall k | 0 <= k < |list| ensures list[k].id != id {
        assert FindById(store, list[k].id).Ok?;
      }
    }
  }

  // ---------------------------------------------------------------------------
  // The save notification

  /** The success message as written: it reads the post from the list captured before the
      optimistic update, so it reports the state the post had before the toggle. */
  function SaveToastAsWritten(before: seq<Post>, id: int): string {
    match FindIndex(before, id)
    case Some(i) => if before[i].saved then "Post saved!" else "Post unsaved!"
    case None => "Post unsaved!"
  }

  /** The message announces "saved" exactly when the post has just been unsaved. */
  lemma SaveToastAsWrittenInverted(before: seq<Post>, id: int)
    requires FindIndex(before, id).Some?
    ensures var i := FindIndex(before, id).value;
      SaveToastAsWritten(before, id) == "Post saved!" <==> !SaveInList(before, id)[i].saved
  {
  }

  /** The evidently intended message, read from the post the store returns after the
      toggle: "Post saved!" exactly when the post is now saved. */
  function SaveToast(toggled: Post): (m: string)
    ensures m == "Post saved!" <==> toggled.saved
    ensures m == "Post saved!" || m == "Post unsaved!"
  {
    if toggled.saved then "Post saved!" else "Post unsaved!"
  }

  // ---------------------------------------------------------------------------
  // Pagination

  /** The hook's filters: a community name and a sort key ("" when absent), and the
      scores the store's hot and rising orderings use. */
  datatype Filters = Filters(community: string, sortBy: string, scores: Scores)

  /** The request for page `n`: the filters with `page: n, limit: 10`. */
  function Request(f: Filters, n: int): Query {
    Query(f.community, f.sortBy, n, PageSize)
  }

  /** The order the feed pages through: the store's listing order for the filters. */
  function FeedOrder(store: seq<Post>, f: Filters): seq<Post> {
    Ranked(store, Query(f.community, f.sortBy, 0, 0), f.scores)
  }

  /** The listing of page `n` is that page of the feed order. */
  lemma ListingIsFeedPage(store: seq<Post>, f: Filters, n: int)
    ensures Listing(store, Request(f, n), f.scores) == Paginate(FeedOrder(store, f), n, PageSize)
  {
  }

  /** The accumulated posts are the first `page - 1` pages of the feed, and `page` is the
      next page to ask for. */
  predicate Synced(list: seq<Post>, page: int, full: seq<Post>) {
    page >= 1 && list == full[..Min((page - 1) * PageSize, |full|)]
  }

  /** Appending the requested page keeps the accumulator in step, and once the store
      reports no more pages the accumulator holds the whole feed, each post once. */
  lemma NextPageSynced(list: seq<Post>, page: int, full: seq<Post>)
    requires Synced(list, page, full)
    ensures Synced(list + Paginate(full, page, PageSize).posts, page + 1, full)
    ensures !Paginate(full, page, PageSize).hasMore ==> list + Paginate(full, page, PageSize).posts == full
  {
    var a, b := Min((page - 1) * PageSize, |full|), Min(page * PageSize, |full|);
    assert full[..a] + full[a..b] == full[..b];
  }

  /** The hook's state. */
  datatype FeedState = FeedState(posts: seq<Post>, loading: bool, error: string, hasMore: bool, page: int)

  /** The state `fetchPosts(resetPage)` leaves, given the store's `response` to the
      request for the current page; `failure` is the message of a rejected request, if the
      request is rejected. */
  function AfterFetch(st: FeedState, response: PageResult, resetPage: bool, failure: Option<string>): (r: FeedState)
    ensures !r.loading
    ensures failure.Some? ==>
      && r.posts == st.posts && r.page == st.page && r.hasMore == st.hasMore
      && r.error == (if failure.value == "" then "Failed to fetch posts" else failure.value)
    ensures failure.None? ==>
      && r.error == "" && r.hasMore == response.hasMore
      && r.posts == (if resetPage then [] else st.posts) + response.posts
      && r.page == (if resetPage then 2 else st.page + 1)
  {
    match failure
    case Some(message) =>
      st.(loading := false, error := if message == "" then "Failed to fetch posts" else message)
    case None =>
      if resetPage then
        st.(posts := response.posts, page := 2, hasMore := response.hasMore, error := "", loading := false)
      else
        st.(posts := st.posts + response.posts, page := st.page + 1, hasMore := response.hasMore,
            error := "", loading := false)
  }

  /** The page a fetch asks for: the first after a reset, the next one otherwise. */
  function FetchedPage(st: FeedState, resetPage: bool): int {
    if resetPage then 1 else st.page
  }

  /** A successful fetch of the next page of `full` keeps an accumulator in step with
      `full`, and a successful reset fetch puts any accumulator in step. */
  lemma PageFetchSynced(st: FeedState, full: seq<Post>, resetPage: bool, response: PageResult)
    requires response == Paginate(full, FetchedPage(st, resetPage), PageSize)
    requires resetPage || Synced(st.posts, st.page, full)
    ensures var r := AfterFetch(st, response, resetPage, None);
      Synced(r.posts, r.page, full) && (!r.hasMore ==> r.posts == full)
  {
    if resetPage {
      assert Synced([], 1, full);
      NextPageSynced([], 1, full);
      assert [] + response.posts == response.posts;
    } else {
      NextPageSynced(st.posts, st.page, full);
    }
  }

  /** A successful reset fetch, and a successful fetch from an accumulator in step, leave
      the accumulator in step with the feed; when `hasMore` turns false the accumulator
      holds the whole feed, each post once. */
  lemma FetchKeepsSynced(st: FeedState, store: seq<Post>, f: Filters, resetPage: bool, response: PageResult)
    requires response == Listing(store, Request(f, FetchedPage(st, resetPage)), f.scores)
    requires resetPage || Synced(st.posts, st.page, FeedOrder(store, f))
    ensures var r := AfterFetch(st, response, resetPage, None);
      Synced(r.posts, r.page, FeedOrder(store, f)) && (!r.hasMore ==> r.posts == FeedOrder(store, f))
  {
    ListingIsFeedPage(store, f, FetchedPage(st, resetPage));
    PageFetchSynced(st, FeedOrder(store, f), resetPage, response);
  }

  /** Fetching keeps the accumulated posts a replica of a store with unique identifiers. */
  lemma FetchKeepsMirror(st: FeedState, store: seq<Post>, f: Filters, resetPage: bool, failure: Option<string>,
                         response: PageResult)
    requires response == Listing(store, Request(f, FetchedPage(st, resetPage)), f.scores)
    requires UniqueIds(store)
    requires (resetPage && failure.None?) || Mirrors(st.posts, store)
    ensures Mirrors(AfterFetch(st, response, resetPage, failure).posts, store)
  {
    if failure.None? {
      ListingMirrors(store, Request(f, FetchedPage(st, resetPage)), f.scores);
      if !resetPage {
        MirrorsAppend(st.posts, response.posts, store);
      }
    }
  }

  // ---------------------------------------------------------------------------
  // The hook's state

  /** The hook instance for one set of filters. */
  class PostsFeed {
    const filters: Filters
    var posts: seq<Post>
    var loading: bool
    var error: string
    var hasMore: bool
    var page: int

    function State(): FeedState
      reads this
    {
      FeedState(posts, loading, error, hasMore, page)
    }

    constructor (filters: Filters)
      ensures this.filters == filters
      ensures State() == FeedState([], true, "", true, 1)
    {
      this.filters := filters;
      posts := [];
      loading := true;
      error := "";
      hasMore := true;
      page := 1;
    }

    /** `fetchPosts(resetPage)` against the store; `response` is what the store answers to
        the request, used unless `failure` says the request was rejected. */
    method FetchPosts(service: PostService, resetPage: bool, failure: Option<string>) returns (response: PageResult)
      modifies this
      ensures response == Listing(service.posts, Request(filters, FetchedPage(old(State()), resetPage)), filters.scores)
      ensures State() == AfterFetch(old(State()), response, resetPage, failure)
    {
      ghost var st := State();
      var currentPage := if resetPage then 1 else page;
      assert currentPage == FetchedPage(st, resetPage);
      response := Listing(service.posts, Request(filters, currentPage), filters.scores);
      loading := true;
      error := "";
      if failure.Some? {
        error := if failure.value == "" then "Failed to fetch posts" else failure.value;
        loading := false;
        return;
      }
      if resetPage {
        posts := response.posts;
        page := 2;
      } else {
        posts := posts + response.posts;
        page := page + 1;
      }
      hasMore := response.hasMore;
      loading := false;
    }

    /** `loadMore()`: fetch the next page only when no fetch is running and the store
        reported more posts; `response` is the store's answer when a fetch is made. */
    method LoadMore(service: PostService, failure: Option<string>) returns (response: Option<PageResult>)
      modifies this
      ensures response.Some? <==> !old(loading) && old(hasMore)
      ensures response.Some? ==>
        && response.value == Listing(service.posts, Request(filters, old(page)), filters.scores)
        && State() == AfterFetch(old(State()), response.value, false, failure)
      ensures response.None? ==> State() == old(State())
    {
      response := None;
      if !loading && hasMore {
        var fetched := FetchPosts(service, false, failure);
        response := Some(fetched);
      }
    }

    /** `handleVote(postId, voteType)`: the optimistic update, then the store's `vote`;
        when the store rejects it, the notification and a reset fetch, whose answer is
        `refetched`. */
    method HandleVote(service: PostService, postId: int, voteType: Vote)
      returns (toast: Option<Toast>, refetched: Option<PageResult>)
      modifies this, service
      ensures service.posts == AfterVote(old(service.posts), postId, voteType)
      ensures FindIndex(old(service.posts), postId).Some? ==>
        && toast.None? && refetched.None?
        && State() == old(State()).(posts := VoteInList(old(posts), postId, voteType))
      ensures FindIndex(old(service.posts), postId).None? ==>
        && toast == Some(Failure("Failed to vote on post")) && refetched.Some?
        && refetched.value == Listing(service.posts, Request(filters, 1), filters.scores)
        && State() == AfterFetch(old(State()).(posts := VoteInList(old(posts), postId, voteType)),
                                 refetched.value, true, None)
      ensures UniqueIds(old(service.posts)) && Mirrors(old(posts), old(service.posts)) ==>
        Mirrors(posts, service.posts)
    {
      if Mirrors(posts, service.posts) {
        VoteKeepsMirror(posts, service.posts, postId, voteType);
      }
      posts := VoteInList(posts, postId, voteType);
      var voted := State();
      var r := service.Vote(postId, voteType);
      if r.Err? {
        toast := Some(Failure("Failed to vote on post"));
        var response := FetchPosts(service, true, None);
        refetched := Some(response);
        if UniqueIds(service.posts) {
          FetchKeepsMirror(voted, service.posts, filters, true, None, response);
        }
      } else {
        toast := None;
        refetched := None;
      }
    }

    /** `handleSave(postId)`: the optimistic update, then the store's `toggleSave`, then a
        message that reports the post's new state; when the store rejects it, the
        notification and a reset fetch, whose answer is `refetched`. */
    method HandleSave(service: PostService, postId: int) returns (toast: Toast, refetched: Option<PageResult>)
      modifies this, service
      ensures service.posts == AfterSave(old(service.posts), postId)
      ensures FindIndex(old(service.posts), postId).Some? ==>
        && refetched.None?
        && State() == old(State()).(posts := SaveInList(old(posts), postId))
        && (toast == Success("Post saved!") <==> service.posts[FindIndex(old(service.posts), postId).value].saved)
      ensures FindIndex(old(service.posts), postId).None? ==>
        && toast == Failure("Failed to save post") && refetched.Some?
        && refetched.value == Listing(service.posts, Request(filters, 1), filters.scores)
        && State() == AfterFetch(old(State()).(posts := SaveInList(old(posts), postId)),
                                 refetched.value, true, None)
      ensures UniqueIds(old(service.posts)) && Mirrors(old(posts), old(service.posts)) ==>
        Mirrors(posts, service.posts)
    {
      if Mirrors(posts, service.posts) {
        SaveKeepsMirror(posts, service.posts, postId);
      }
      posts := SaveInList(posts, postId);
      var saved := State();
      var r := service.ToggleSave(postId);
      if r.Err? {
        toast := Failure("Failed to save post");
        var response := FetchPosts(service, true, None);
        refetched := Some(response);
        if UniqueIds(service.posts) {
          FetchKeepsMirror(saved, service.posts, filters, true, None, response);
        }
      } else {
        toast := Success(SaveToast(r.value));
        refetched := None;
      }
    }
  }
}

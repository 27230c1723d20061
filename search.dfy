/** The search page of src/components/pages/Search.jsx: the first hundred posts of the
    store, filtered by a case-insensitive substring match on title, content, community or
    author, then sorted by newest, by net votes, or by relevance (title matches first);
    and the same optimistic vote and save updates as the post feed. */
module SearchPage {
  import opened Wrappers
  import opened Text
  import opened Seqs
  import opened Posts
  import opened Toasts
  import PostsHook

  /** The page asks the store for one page of this many posts. */
  const SearchLimit := 100

  /** The request `getAll({ limit: 100 })`: no community, no sort, the default page. */
  function SearchRequest(): Query {
    Query("", "", 0, SearchLimit)
  }

  /** The posts the search looks through: the first hundred in store order. */
  function Candidates(store: seq<Post>): (r: seq<Post>)
    ensures |r| == Min(SearchLimit, |store|)
    ensures forall i :: 0 <= i < |r| ==> r[i] == store[i]
  {
    store[..Min(SearchLimit, |store|)]
  }

  /** The store's answer to the search request is the first hundred posts in store order. */
  lemma RequestGivesCandidates(store: seq<Post>, scores: Scores)
    ensures Listing(store, SearchRequest(), scores).posts == Candidates(store)
  {
  }

  /** `s.toLowerCase().includes(query.toLowerCase())` */
  predicate InText(s: string, query: string) {
    Contains(Lower(s), Lower(query))
  }

  /** The filter predicate: the query occurs in the title, the content when there is one,
      the community name or the author name, ignoring case. */
  predicate Matches(p: Post, query: string) {
    || InText(p.title, query)
    || (p.content.Some? && InText(p.content.value, query))
    || InText(p.community, query)
    || InText(p.author, query)
  }

  /** The filtered posts: exactly the candidates that match, in candidate order. */
  function Matching(candidates: seq<Post>, query: string): (r: seq<Post>)
    ensures forall i :: 0 <= i < |r| ==> r[i] in candidates && Matches(r[i], query)
    ensures forall i :: 0 <= i < |candidates| && Matches(candidates[i], query) ==> candidates[i] in r
  {
    var keep := (p: Post) => Matches(p, query);
    FilterMembers(candidates, keep);
    Filter(candidates, keep)
  }

  /** The filter keeps candidate order and multiplicity: filtering two stretches of
      candidates gives the matches of the first followed by those of the second, one post
      is kept exactly when it matches, and no post is kept more often than it occurs. */
  lemma MatchingInOrder(a: seq<Post>, b: seq<Post>, query: string)
    ensures Matching(a + b, query) == Matching(a, query) + Matching(b, query)
    ensures forall x :: Matching([x], query) == if Matches(x, query) then [x] else []
    ensures multiset(Matching(a, query)) <= multiset(a)
  {
    var keep := (p: Post) => Matches(p, query);
    FilterAppend(a, b, keep);
    FilterMembers(a, keep);
    forall x ensures Matching([x], query) == if Matches(x, query) then [x] else [] {
      FilterOne(x, keep);
    }
  }

  /** The relevance score: 2 for a title match, 1 otherwise. */
  function Relevance(query: string, p: Post): (score: int)
    ensures score == 2 <==> InText(p.title, query)
    ensures score == 1 <==> !InText(p.title, query)
  {
    if InText(p.title, query) then 2 else 1
  }

  function RelevanceKey(query: string): Post -> int {
    (p: Post) => Relevance(query, p)
  }

  /** The sort the page applies to a fresh copy of the filtered posts; any sort key but
      "new" and "top" is relevance, the page's default. */
  function SortResults(s: seq<Post>, sortBy: string, query: string): (r: seq<Post>)
    ensures multiset(r) == multiset(s)
    ensures sortBy == "new" ==> forall i, j :: 0 <= i < j < |r| ==> r[i].createdAt >= r[j].createdAt
    ensures sortBy == "top" ==> forall i, j :: 0 <= i < j < |r| ==> NetVotes(r[i]) >= NetVotes(r[j])
    ensures sortBy != "new" && sortBy != "top" ==>
      forall i, j :: 0 <= i < j < |r| ==> Relevance(query, r[i]) >= Relevance(query, r[j])
  {
    if sortBy == "new" then SortDesc(s, CreatedAt)
    else if sortBy == "top" then SortDesc(s, NetVotes)
    else SortDesc(s, RelevanceKey(query))
  }

  /** The search results: the matching candidates, in the chosen order, each one exactly
      as often as in the filtered list. */
  function Results(candidates: seq<Post>, query: string, sortBy: string): (r: seq<Post>)
    ensures multiset(r) == multiset(Matching(candidates, query))
    ensures forall i :: 0 <= i < |r| ==> Matches(r[i], query)
  {
    var filtered := Matching(candidates, query);
    var r := SortResults(filtered, sortBy, query);
    assert forall i :: 0 <= i < |r| ==> r[i] in multiset(filtered);
    r
  }

  /** Sorting by relevance puts every title match before every other match, and keeps
      the filtered order within each of the two groups: the sort is stable. */
  lemma RelevanceGroups(s: seq<Post>, sortBy: string, query: string)
    requires sortBy != "new" && sortBy != "top"
    ensures SortResults(s, sortBy, query)
         == KeyClass(s, RelevanceKey(query), 2) + KeyClass(s, RelevanceKey(query), 1)
  {
    var key := RelevanceKey(query);
    var r := SortDesc(s, key);
    assert forall i :: 0 <= i < |r| ==> key(r[i]) == 2 || key(r[i]) == 1;
    SortedTwoClasses(r, key, 2, 1);
    SortDescStable(s, key, 2);
    SortDescStable(s, key, 1);
  }

  /** Every result is a candidate, so with unique identifiers in the store the results are
      a replica of the store. */
  lemma ResultsMirror(store: seq<Post>, query: string, sortBy: string)
    requires UniqueIds(store)
    ensures PostsHook.Mirrors(Results(Candidates(store), query, sortBy), store)
  {
    var c := Candidates(store);
    var filtered := Matching(c, query);
    var r := Results(c, query, sortBy);
    forall k | 0 <= k < |r| ensures FindById(store, r[k].id) == Ok(r[k]) {
      assert r[k] in multiset(filtered);
      var j :| 0 <= j < |filtered| && filtered[j] == r[k];
      var m :| 0 <= m < |c| && c[m] == r[k];
      FindOwnId(store, m);
    }
  }

  /** The page's state for one query string from the address. */
  class SearchView {
    const query: string
    var sortBy: string
    var posts: seq<Post>
    var loading: bool
    var error: string

    constructor (query: string)
      ensures this.query == query
      ensures sortBy == "relevance" && posts == [] && loading && error == ""
    {
      this.query := query;
      sortBy := "relevance";
      posts := [];
      loading := true;
      error := "";
    }

    /** `searchPosts()`: nothing but the end of loading for a blank query; otherwise the
        results for the store's first page, or the message of a rejected request. */
    method SearchPosts(service: PostService, failure: Option<string>)
      modifies this
      ensures sortBy == old(sortBy) && !loading
      ensures IsBlank(query) ==> posts == old(posts) && error == old(error)
      ensures !IsBlank(query) && failure.None? ==>
        posts == Results(Candidates(service.posts), query, sortBy) && error == ""
      ensures !IsBlank(query) && failure.Some? ==>
        && posts == old(posts)
        && error == (if failure.value == "" then "Search failed" else failure.value)
    {
      if IsBlank(query) {
        loading := false;
        return;
      }
      loading := true;
      error := "";
      if failure.Some? {
        error := if failure.value == "" then "Search failed" else failure.value;
      } else {
        posts := Results(Candidates(service.posts), query, sortBy);
      }
      loading := false;
    }

    /** `handleVote(postId, voteType)`: the optimistic update, then the store's `vote`;
        when the store rejects it, the notification and a fresh search. */
    method HandleVote(service: PostService, postId: int, voteType: Vote) returns (toast: Option<Toast>)
      modifies this, service
      ensures sortBy == old(sortBy)
      ensures service.posts == AfterVote(old(service.posts), postId, voteType)
      ensures FindIndex(old(service.posts), postId).Some? ==>
        && toast.None? && posts == PostsHook.VoteInList(old(posts), postId, voteType)
        && loading == old(loading) && error == old(error)
      ensures FindIndex(old(service.posts), postId).None? ==>
        toast == Some(Failure("Failed to vote on post")) && !loading
      ensures FindIndex(old(service.posts), postId).None? && !IsBlank(query) ==>
        posts == Results(Candidates(service.posts), query, sortBy) && error == ""
      ensures FindIndex(old(service.posts), postId).None? && IsBlank(query) ==>
        posts == PostsHook.VoteInList(old(posts), postId, voteType) && error == old(error)
      ensures UniqueIds(old(service.posts)) && PostsHook.Mirrors(old(posts), old(service.posts)) ==>
        PostsHook.Mirrors(posts, service.posts)
    {
      if PostsHook.Mirrors(posts, service.posts) {
        PostsHook.VoteKeepsMirror(posts, service.posts, postId, voteType);
      }
      posts := PostsHook.VoteInList(posts, postId, voteType);
      var r := service.Vote(postId, voteType);
      if r.Err? {
        toast := Some(Failure("Failed to vote on post"));
        SearchPosts(service, None);
        if UniqueIds(service.posts) && !IsBlank(query) {
          ResultsMirror(service.posts, query, sortBy);
        }
      } else {
        toast := None;
      }
    }

    /** `handleSave(postId)`: the optimistic update, then the store's `toggleSave`, then a
        message that reports the post's new state; when the store rejects it, the
        notification and a fresh search. */
    method HandleSave(service: PostService, postId: int) returns (toast: Toast)
      modifies this, service
      ensures sortBy == old(sortBy)
      ensures service.posts == AfterSave(old(service.posts), postId)
      ensures FindIndex(old(service.posts), postId).Some? ==>
        && posts == PostsHook.SaveInList(old(posts), postId)
        && loading == old(loading) && error == old(error)
        && (toast == Success("Post saved!") <==> service.posts[FindIndex(old(service.posts), postId).value].saved)
      ensures FindIndex(old(service.posts), postId).None? ==> toast == Failure("Failed to save post") && !loading
      ensures FindIndex(old(service.posts), postId).None? && !IsBlank(query) ==>
        posts == Results(Candidates(service.posts), query, sortBy) && error == ""
      ensures FindIndex(old(service.posts), postId).None? && IsBlank(query) ==>
        posts == PostsHook.SaveInList(old(posts), postId) && error == old(error)
      ensures UniqueIds(old(service.posts)) && PostsHook.Mirrors(old(posts), old(service.posts)) ==>
        PostsHook.Mirrors(posts, service.posts)
    {
      if PostsHook.Mirrors(posts, service.posts) {
        PostsHook.SaveKeepsMirror(posts, service.posts, postId);
      }
      posts := PostsHook.SaveInList(posts, postId);
      var r := service.ToggleSave(postId);
      if r.Err? {
        toast := Failure("Failed to save post");
        SearchPosts(service, None);
        if UniqueIds(service.posts) && !IsBlank(query) {
          ResultsMirror(service.posts, query, sortBy);
        }
      } else {
        toast := Success(PostsHook.SaveToast(r.value));
      }
    }
  }
}

/** The in-memory post store of src/services/api/postService.js: the listing query
    `getAll` (community filter, optional sort, page slice), lookup by identifier, and the
    mutators `vote`, `toggleSave`, `create` and `delete` on the store array. */
module Posts {
  import opened Wrappers
  import opened Text
  import opened Seqs
  import Ids

  /** The current user's vote on a post. `NoVote` is `null`; as a requested vote it also
      stands for every value other than "up" and "down", which `vote` treats alike. */
  datatype Vote = Up | Down | NoVote

  /** A post record. `createdAt` is a timestamp in milliseconds; `content` is optional
      because the records the store is loaded with need not carry it. */
  datatype Post = Post(
    id: int,
    title: string,
    content: Option<string>,
    contentType: string,
    mediaUrl: Option<string>,
    thumbnailUrl: Option<string>,
    author: string,
    authorId: string,
    community: string,
    communityId: string,
    createdAt: int,
    upvotes: int,
    downvotes: int,
    userVote: Vote,
    commentCount: int,
    saved: bool)

  /** The fields a caller hands to `create`; an `id` present here overrides the fresh one,
      because the spread of the caller's data follows the generated `Id`. */
  datatype PostData = PostData(
    id: Option<int>,
    title: string,
    content: Option<string>,
    contentType: string,
    mediaUrl: Option<string>,
    thumbnailUrl: Option<string>,
    author: string,
    authorId: string,
    community: string,
    communityId: string)

  const PostNotFound := "Post not found"

  // ---------------------------------------------------------------------------
  // The listing query

  /** The filters of `getAll`: a community name and a sort key ("" when absent), and a
      page number and page size (0 when absent; JavaScript's `||` then supplies 1 and 10). */
  datatype Query = Query(community: string, sortBy: string, page: int, limit: int)

  datatype SortMode = Unsorted | Newest | Top | Rising | Hot

  /** The `switch` on `sortBy`: no sort when the key is absent, "new", "top" and "rising"
      by name, and the hot ordering for every other key. */
  function ModeOf(sortBy: string): (m: SortMode)
    ensures m == Unsorted <==> sortBy == ""
    ensures m == Newest <==> sortBy == "new"
    ensures m == Top <==> sortBy == "top"
    ensures m == Rising <==> sortBy == "rising"
  {
    if sortBy == "" then Unsorted
    else if sortBy == "new" then Newest
    else if sortBy == "top" then Top
    else if sortBy == "rising" then Rising
    else Hot
  }

  /** The hot and rising orderings are floating-point formulas over the clock; the model
      takes each as an integer score supplied by the caller. */
  datatype Scores = Scores(hot: Post -> int, rising: Post -> int)

  function NetVotes(p: Post): int { p.upvotes - p.downvotes }

  function CreatedAt(p: Post): int { p.createdAt }

  /** The key a sort mode orders by, largest first. */
  function RankKey(mode: SortMode, scores: Scores): Post -> int {
    match mode
    case Newest => CreatedAt
    case Top => NetVotes
    case Rising => scores.rising
    case _ => scores.hot
  }

  /** `post.community.toLowerCase() === community.toLowerCase()` */
  predicate SameCommunity(p: Post, community: string) {
    Lower(p.community) == Lower(community)
  }

  /** The working set of `getAll` before sorting: the whole store, or the posts of one
      community in store order. */
  function Working(posts: seq<Post>, community: string): (r: seq<Post>)
    ensures community == "" ==> r == posts
    ensures community != "" ==> forall i :: 0 <= i < |r| ==> r[i] in posts && SameCommunity(r[i], community)
    ensures community != "" ==> forall i :: 0 <= i < |posts| && SameCommunity(posts[i], community) ==> posts[i] in r
  {
    if community == "" then posts
    else
      var keep := (p: Post) => SameCommunity(p, community);
      FilterMembers(posts, keep);
      Filter(posts, keep)
  }

  /** The working set keeps store order and multiplicity: the working set of two stretches
      of the store is the working set of the first followed by that of the second, one post
      is kept exactly when there is no community filter or the post belongs to the
      community, and no post is kept more often than the store holds it. */
  lemma WorkingInStoreOrder(a: seq<Post>, b: seq<Post>, community: string)
    ensures Working(a + b, community) == Working(a, community) + Working(b, community)
    ensures forall x :: Working([x], community) == if community == "" || SameCommunity(x, community) then [x] else []
    ensures multiset(Working(a, community)) <= multiset(a)
  {
    if community != "" {
      var keep := (p: Post) => SameCommunity(p, community);
      FilterAppend(a, b, keep);
      FilterMembers(a, keep);
      forall x ensures Working([x], community) == if SameCommunity(x, community) then [x] else [] {
        FilterOne(x, keep);
      }
    }
  }

  /** The working set after the optional sort: a permutation of it, ordered by the
      mode's key when a sort key was given, and untouched otherwise. */
  function Ranked(posts: seq<Post>, q: Query, scores: Scores): (r: seq<Post>)
    ensures multiset(r) == multiset(Working(posts, q.community))
    ensures ModeOf(q.sortBy) == Unsorted ==> r == Working(posts, q.community)
    ensures q.sortBy == "new" ==> forall i, j :: 0 <= i < j < |r| ==> r[i].createdAt >= r[j].createdAt
    ensures q.sortBy == "top" ==> forall i, j :: 0 <= i < j < |r| ==> NetVotes(r[i]) >= NetVotes(r[j])
    ensures ModeOf(q.sortBy) != Unsorted ==> SortedDesc(r, RankKey(ModeOf(q.sortBy), scores))
  {
    var working := Working(posts, q.community);
    var mode := ModeOf(q.sortBy);
    if mode == Unsorted then working else SortDesc(working, RankKey(mode, scores))
  }

  /** Posts with equal keys keep their store order: the sort is stable. */
  lemma RankedStable(posts: seq<Post>, q: Query, scores: Scores, k: int)
    requires ModeOf(q.sortBy) != Unsorted
    ensures var key := RankKey(ModeOf(q.sortBy), scores);
      KeyClass(Ranked(posts, q, scores), key, k) == KeyClass(Working(posts, q.community), key, k)
  {
    SortDescStable(Working(posts, q.community), RankKey(ModeOf(q.sortBy), scores), k);
  }

  /** The result of `getAll`. */
  datatype PageResult = PageResult(posts: seq<Post>, hasMore: bool, total: int)

  function DefaultPage(page: int): int { if page == 0 then 1 else page }

  function DefaultLimit(limit: int): int { if limit == 0 then 10 else limit }

  lemma ProductBounds(p: int, l: int)
    ensures p >= 1 && l >= 1 ==> 0 <= (p - 1) * l
    ensures (p - 1) * l + l == p * l
  {
  }

  /** The page that starts at `(page-1)*limit` and holds up to `limit` posts, `hasMore` iff
      it ends before the list does, and `total` the length of the list. A page past the end
      is empty. */
  function Paginate(s: seq<Post>, page: int, limit: int): (r: PageResult)
    ensures r.total == |s|
    ensures var p, l := DefaultPage(page), DefaultLimit(limit);
      var start := (p - 1) * l;
      p >= 1 && l >= 1 ==>
        && 0 <= start && start + l == p * l
        && r.posts == s[Min(start, |s|)..Min(start + l, |s|)]
        && (r.hasMore <==> start + l < |s|)
        && (start >= |s| ==> r.posts == [] && !r.hasMore)
  {
    var p := DefaultPage(page);
    var l := DefaultLimit(limit);
    var startIndex := (p - 1) * l;
    var endIndex := startIndex + l;
    ProductBounds(p, l);
    PageResult(JsSlice(s, startIndex, endIndex), endIndex < |s|, |s|)
  }

  /** Every post on a page is a post of the paged list. */
  lemma PageMembers(s: seq<Post>, page: int, limit: int)
    ensures forall i :: 0 <= i < |Paginate(s, page, limit).posts| ==> Paginate(s, page, limit).posts[i] in s
  {
    var p, l := DefaultPage(page), DefaultLimit(limit);
    SliceMembers(s, (p - 1) * l, (p - 1) * l + l);
  }

  /** `getAll(filters)`: one page of the ranked working set, with the size of the working
      set as the total. */
  function Listing(posts: seq<Post>, q: Query, scores: Scores): (r: PageResult)
    ensures r.total == |Working(posts, q.community)|
    ensures |r.posts| <= r.total
  {
    Paginate(Ranked(posts, q, scores), q.page, q.limit)
  }

  /** Every post `getAll` returns is in the working set: a store post of the community asked
      for, or any store post without a community filter. */
  lemma ListingDrawnFromWorking(posts: seq<Post>, q: Query, scores: Scores)
    ensures forall i :: 0 <= i < |Listing(posts, q, scores).posts| ==>
      Listing(posts, q, scores).posts[i] in Working(posts, q.community)
  {
    var ranked := Ranked(posts, q, scores);
    PageMembers(ranked, q.page, q.limit);
    forall i | 0 <= i < |Listing(posts, q, scores).posts|
      ensures Listing(posts, q, scores).posts[i] in Working(posts, q.community)
    {
      var x := Listing(posts, q, scores).posts[i];
      assert x in multiset(ranked);
    }
  }

  /** Pages 1 to `n` of `s`, concatenated. */
  function PagesThrough(s: seq<Post>, n: nat, limit: int): seq<Post> {
    if n == 0 then [] else PagesThrough(s, n - 1, limit) + Paginate(s, n, limit).posts
  }

  /** Two adjacent slices from the start make one. */
  lemma PrefixConcat(s: seq<Post>, a: int, b: int)
    requires 0 <= a <= b <= |s|
    ensures s[..a] + s[a..b] == s[..b]
  {
  }

  /** Reading pages 1 to `n` in turn yields the first `n * limit` posts, each once. */
  lemma {:induction false} PagesCover(s: seq<Post>, n: nat, limit: int)
    requires limit >= 1
    ensures PagesThrough(s, n, limit) == s[..Min(n * limit, |s|)]
  {
    if n > 0 {
      PagesCover(s, n - 1, limit);
      ProductBounds(n, limit);
      var a, b := Min((n - 1) * limit, |s|), Min(n * limit, |s|);
      assert Paginate(s, n, limit).posts == s[a..b];
      PrefixConcat(s, a, b);
    }
  }

  /** Once a page reports no more, the pages read so far are the whole list. */
  lemma LastPageCompletes(s: seq<Post>, n: nat, limit: int)
    requires limit >= 1 && n >= 1
    requires !Paginate(s, n, limit).hasMore
    ensures PagesThrough(s, n, limit) == s
  {
    PagesCover(s, n, limit);
  }

  // ---------------------------------------------------------------------------
  // Lookup

  /** `findIndex(p => p.Id === id)` */
  function FindIndex(posts: seq<Post>, id: int): (r: Option<nat>)
    ensures r.Some? ==> r.value < |posts| && posts[r.value].id == id
    ensures r.Some? ==> forall j :: 0 <= j < r.value ==> posts[j].id != id
    ensures r.None? ==> forall j :: 0 <= j < |posts| ==> posts[j].id != id
  {
    FindFirst(posts, (p: Post) => p.id == id)
  }

  /** `getById`: the first post with the identifier, or "Post not found". */
  function FindById(posts: seq<Post>, id: int): (r: Result<Post>)
    ensures r.Ok? <==> exists i :: 0 <= i < |posts| && posts[i].id == id
    ensures r.Ok? ==> r.value.id == id && r.value == posts[FindIndex(posts, id).value]
    ensures r.Err? ==> r.message == PostNotFound
  {
    match FindIndex(posts, id)
    case None => Err(PostNotFound)
    case Some(i) => Ok(posts[i])
  }

  function IdsOf(posts: seq<Post>): (ids: seq<int>)
    ensures |ids| == |posts| && forall i :: 0 <= i < |posts| ==> ids[i] == posts[i].id
  {
    seq(|posts|, i requires 0 <= i < |posts| => posts[i].id)
  }

  /** Lookup depends only on the identifiers, position by position. */
  lemma FindIndexSameIds(a: seq<Post>, b: seq<Post>, id: int)
    requires IdsOf(a) == IdsOf(b)
    ensures FindIndex(a, id) == FindIndex(b, id)
  {
    assert |a| == |b|;
    assert forall j :: 0 <= j < |a| ==> a[j].id == b[j].id by {
      forall j | 0 <= j < |a| ensures a[j].id == b[j].id {
        assert IdsOf(a)[j] == IdsOf(b)[j];
      }
    }
  }

  /** No two posts of the store share an identifier. */
  predicate UniqueIds(posts: seq<Post>) {
    forall i, j :: 0 <= i < j < |posts| ==> posts[i].id != posts[j].id
  }

  /** With unique identifiers, looking up a post of the store finds that post. */
  lemma FindOwnId(posts: seq<Post>, k: nat)
    requires UniqueIds(posts) && k < |posts|
    ensures FindIndex(posts, posts[k].id) == Some(k)
    ensures FindById(posts, posts[k].id) == Ok(posts[k])
  {
    var r := FindIndex(posts, posts[k].id);
    assert r.Some?;
  }

  // ---------------------------------------------------------------------------
  // The vote state machine

  function Tally(b: bool): int { if b then 1 else 0 }

  /** The vote a request leaves: repeating the current vote withdraws it, anything else
      becomes the vote (a request that is neither "up" nor "down" clears it). */
  function NextVote(current: Vote, requested: Vote): (next: Vote)
    ensures requested == current ==> next == NoVote
    ensures requested != current ==> next == requested
  {
    if requested == current then NoVote else requested
  }

  /** The upvotes and downvotes that other users have cast. */
  function OthersUp(p: Post): int { p.upvotes - Tally(p.userVote == Up) }

  function OthersDown(p: Post): int { p.downvotes - Tally(p.userVote == Down) }

  /** The post after the current user requests a vote: other users' votes are kept, and
      each counter holds them plus the user's own contribution under the new vote. */
  function Voted(p: Post, requested: Vote): Post {
    var next := NextVote(p.userVote, requested);
    p.(upvotes := OthersUp(p) + Tally(next == Up),
       downvotes := OthersDown(p) + Tally(next == Down),
       userVote := next)
  }

  /** Voting changes only the two counters and `userVote`, keeps other users' votes, and
      leaves the user with at most one active vote. */
  lemma VoteKeepsOthers(p: Post, requested: Vote)
    ensures var q := Voted(p, requested);
      && q.(upvotes := p.upvotes, downvotes := p.downvotes, userVote := p.userVote) == p
      && OthersUp(q) == OthersUp(p) && OthersDown(q) == OthersDown(p)
      && q.userVote == NextVote(p.userVote, requested)
  {
  }

  /** From no vote, voting the same way twice restores the post. */
  lemma VoteTwiceRestores(p: Post, requested: Vote)
    requires p.userVote == NoVote
    ensures Voted(Voted(p, requested), requested) == p
  {
  }

  /** Switching from up to down moves one vote from `upvotes` to `downvotes` in one call. */
  lemma SwitchUpToDown(p: Post)
    requires p.userVote == Up
    ensures var q := Voted(p, Down);
      q.upvotes == p.upvotes - 1 && q.downvotes == p.downvotes + 1 && q.userVote == Down
  {
  }

  /** The counters never go negative and each counts the user's own vote. */
  predicate Consistent(p: Post) {
    && p.upvotes >= 0 && p.downvotes >= 0
    && (p.userVote == Up ==> p.upvotes >= 1)
    && (p.userVote == Down ==> p.downvotes >= 1)
  }

  predicate AllConsistent(posts: seq<Post>) {
    forall i :: 0 <= i < |posts| ==> Consistent(posts[i])
  }

  /** Voting preserves the counter invariant. */
  lemma VoteKeepsConsistent(p: Post, requested: Vote)
    requires Consistent(p)
    ensures Consistent(Voted(p, requested))
  {
  }

  /** The store after `vote(id, requested)`: the first post with the identifier is voted
      on, when there is one. Identifiers, order and the counter invariant are kept. */
  function AfterVote(posts: seq<Post>, id: int, requested: Vote): (r: seq<Post>)
    ensures |r| == |posts| && IdsOf(r) == IdsOf(posts)
    ensures FindIndex(posts, id).None? ==> r == posts
    ensures AllConsistent(posts) ==> AllConsistent(r)
    ensures UniqueIds(posts) ==> UniqueIds(r)
  {
    match FindIndex(posts, id)
    case None => posts
    case Some(i) => posts[i := Voted(posts[i], requested)]
  }

  /** The store after `toggleSave(id)`: the first post with the identifier has `saved`
      flipped, when there is one; nothing else changes. */
  function AfterSave(posts: seq<Post>, id: int): (r: seq<Post>)
    ensures |r| == |posts| && IdsOf(r) == IdsOf(posts)
    ensures FindIndex(posts, id).None? ==> r == posts
    ensures forall k :: 0 <= k < |posts| ==> r[k].(saved := posts[k].saved) == posts[k]
    ensures AllConsistent(posts) ==> AllConsistent(r)
    ensures UniqueIds(posts) ==> UniqueIds(r)
  {
    match FindIndex(posts, id)
    case None => posts
    case Some(i) => posts[i := posts[i].(saved := !posts[i].saved)]
  }

  /** Two `toggleSave` calls on the same identifier restore the store. */
  lemma SaveTwiceRestores(posts: seq<Post>, id: int)
    ensures AfterSave(AfterSave(posts, id), id) == posts
  {
    FindIndexSameIds(AfterSave(posts, id), posts, id);
  }

  /** After a vote the post is found where it was, carrying the new vote. */
  lemma FindAfterVote(posts: seq<Post>, id: int, requested: Vote)
    requires FindIndex(posts, id).Some?
    ensures var i := FindIndex(posts, id).value;
      FindById(AfterVote(posts, id, requested), id) == Ok(Voted(posts[i], requested))
  {
    FindIndexSameIds(AfterVote(posts, id, requested), posts, id);
  }

  /** The post `create` builds: the caller's fields, then the forced counters. */
  function NewPost(data: PostData, freshId: int, now: int): (p: Post)
    ensures p.id == (if data.id.Some? then data.id.value else freshId)
    ensures p.upvotes == 1 && p.downvotes == 0 && p.userVote == Up
    ensures p.commentCount == 0 && !p.saved && p.createdAt == now
    ensures p.title == data.title && p.content == data.content && p.community == data.community
    ensures p.contentType == data.contentType && p.mediaUrl == data.mediaUrl && p.thumbnailUrl == data.thumbnailUrl
    ensures p.author == data.author && p.authorId == data.authorId && p.communityId == data.communityId
    ensures Consistent(p)
  {
    Post(if data.id.Some? then data.id.value else freshId,
         data.title, data.content, data.contentType, data.mediaUrl, data.thumbnailUrl,
         data.author, data.authorId, data.community, data.communityId,
         now, 1, 0, Up, 0, false)
  }

  // ---------------------------------------------------------------------------
  // The store

  /** The service object; `posts` is its array, in store order (newest creations first). */
  class PostService {
    var posts: seq<Post>

    constructor (initial: seq<Post>)
      ensures posts == initial
    {
      posts := initial;
    }

    /** `vote(id, voteType)`: undo the previous vote, then apply the requested one unless
        it repeats the previous one. */
    method Vote(id: int, voteType: Vote) returns (r: Result<Post>)
      modifies this
      ensures FindIndex(old(posts), id).None? ==> r == Err(PostNotFound) && posts == old(posts)
      ensures FindIndex(old(posts), id).Some? ==>
        var i := FindIndex(old(posts), id).value;
        posts == old(posts)[i := Voted(old(posts)[i], voteType)] && r == Ok(posts[i])
      ensures posts == AfterVote(old(posts), id, voteType)
      ensures AllConsistent(old(posts)) ==> AllConsistent(posts)
      ensures UniqueIds(old(posts)) ==> UniqueIds(posts)
    {
      var found := FindIndex(posts, id);
      if found.None? {
        return Err(PostNotFound);
      }
      var i := found.value;
      var post := posts[i];
      var currentVote := post.userVote;
      // Undo the vote recorded for the user.
      if currentVote == Up {
        post := post.(upvotes := post.upvotes - 1);
      } else if currentVote == Down {
        post := post.(downvotes := post.downvotes - 1);
      }
      // Record the requested vote, unless it repeats the one just undone.
      if voteType == Up && currentVote != Up {
        post := post.(upvotes := post.upvotes + 1, userVote := Up);
      } else if voteType == Down && currentVote != Down {
        post := post.(downvotes := post.downvotes + 1, userVote := Down);
      } else {
        post := post.(userVote := NoVote);
      }
      posts := posts[i := post];
      r := Ok(post);
    }

    /** `toggleSave(id)`: flip `saved` on the post. */
    method ToggleSave(id: int) returns (r: Result<Post>)
      modifies this
      ensures FindIndex(old(posts), id).None? ==> r == Err(PostNotFound) && posts == old(posts)
      ensures FindIndex(old(posts), id).Some? ==>
        var i := FindIndex(old(posts), id).value;
        posts == old(posts)[i := old(posts)[i].(saved := !old(posts)[i].saved)] && r == Ok(posts[i])
      ensures posts == AfterSave(old(posts), id)
      ensures AllConsistent(old(posts)) ==> AllConsistent(posts)
      ensures UniqueIds(old(posts)) ==> UniqueIds(posts)
    {
      var found := FindIndex(posts, id);
      if found.None? {
        return Err(PostNotFound);
      }
      var i := found.value;
      posts := posts[i := posts[i].(saved := !posts[i].saved)];
      r := Ok(posts[i]);
    }

    /** `create(postData)` at time `now`: the new post goes to the front of the store. */
    method Create(data: PostData, now: int) returns (r: Post)
      modifies this
      ensures r == NewPost(data, Ids.NextId(IdsOf(old(posts))), now)
      ensures posts == [r] + old(posts)
      ensures AllConsistent(old(posts)) ==> AllConsistent(posts)
      ensures data.id.None? && UniqueIds(old(posts)) ==> UniqueIds(posts)
    {
      var freshId := Ids.NextId(IdsOf(posts));
      r := NewPost(data, freshId, now);
      posts := [r] + posts;
    }

    /** `delete(id)`: remove the first post with the identifier, keeping the rest in order. */
    method Delete(id: int) returns (r: Result<Post>)
      modifies this
      ensures FindIndex(old(posts), id).None? ==> r == Err(PostNotFound) && posts == old(posts)
      ensures FindIndex(old(posts), id).Some? ==>
        var i := FindIndex(old(posts), id).value;
        posts == old(posts)[..i] + old(posts)[i + 1..] && r == Ok(old(posts)[i])
      ensures AllConsistent(old(posts)) ==> AllConsistent(posts)
      ensures UniqueIds(old(posts)) ==> UniqueIds(posts)
    {
      var found := FindIndex(posts, id);
      if found.None? {
        return Err(PostNotFound);
      }
      var i := found.value;
      r := Ok(posts[i]);
      posts := posts[..i] + posts[i + 1..];
    }
  }
}

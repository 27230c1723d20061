# ThreadHub core, modelled in Dafny

ThreadHub is a small discussion-board client. Its data lives in three in-memory stores.

- **Post store** (`src/services/api/postService.js`). It answers the feed query `getAll`:
  - an optional case-insensitive community filter;
  - an optional sort by newest, by net votes, or by the "rising" and "hot" scores;
  - a page slice with a `hasMore` flag.

  It also looks posts up, and it votes, saves, creates and deletes them in place.
- **Community store** (`communityService.js`). It returns the most popular communities and looks them up by identifier or by name. It also joins, leaves and creates communities.
- **Topic store** (`topicService.js`). It returns trending topics and searches them by name.

The client keeps replicas of parts of these stores and updates them optimistically:

- **`usePosts`** accumulates feed pages.
- **`useCommunities`** flips its copy of a community after a join or leave.
- **The search page** filters and sorts the first hundred posts.
- **The post page** checks the identifier in the address.
- **The submit page** checks a form and builds the post to create.
- **The vote widget** decides which request each arrow sends.
- **`formatTimeAgo`** labels a time as today, yesterday, or some days, weeks, months or years ago.

The model has one module per source file, plus small helper modules:

- `Wrappers`: `Option`, `Result`, `Min`, `Max`.
- `Text`: JavaScript's `trim`, `toLowerCase`, `includes`, string `replace`, digit strings and number printing.
- `Seqs`: `filter`, `find`, `slice`, and the stable sort by a descending key.
- `Ids`: `Math.max(...ids) + 1`.
- `Toasts`: notifications.

The state that the source changes in place is a Dafny class:

- the two mutable stores (`Posts.PostService`, `Communities.CommunityService`);
- the hooks (`PostsHook.PostsFeed`, `CommunitiesHook.CommunitiesView`);
- the page states (`SearchPage.SearchView`, `PostDetailPage.PostDetailView`).

Each of these classes has `modifies` clauses on its methods. The methods are specified by pure functions of the old state (`AfterVote`, `AfterSave`, `AfterFetch`, `Results`, `FlipJoin`), and the lemmas are proved about those functions.

Three invariants carry most of the proofs:

- **`PostsHook.Mirrors`**: every post a client holds is the store's current record for its identifier. Fetching establishes it. The optimistic vote and save updates keep it, both in the hook and on the search page. The post page keeps its `InSync` form, and the communities hook keeps its own `Mirrors` across the join toggle.
- **`PostsHook.Synced`**: the feed accumulator holds exactly the first `page - 1` pages of the feed order. Once `hasMore` turns false, the accumulator holds the whole feed, each post once.
- **`Posts.Consistent`**: the vote counters are non-negative and include the user's own vote.

Conventions:

- Times are integers: milliseconds since the epoch.
- The current time is always a parameter.
- Identifiers are integers. A string identifier from an address becomes one only through the digit check.
- A request the network would reject is modelled by a `failure: Option<string>` parameter. An empty message stands for an error without one, which JavaScript's `||` replaces with the default text.
- An absent filter field is `""` or `0`, as `||` treats it.

## Model

| member | source | states |
|---|---|---|
| Seqs.FilterCount | src/services/api/postService.js:18-20 | `filter` keeps every element satisfying the predicate exactly as often as the input holds it, and no other element |
| Seqs.FilterMembers | src/services/api/postService.js:18-20 | every element `filter` keeps comes from the input and satisfies the predicate; every input element satisfying it is kept; the result is a sub-multiset of the input |
| Seqs.FilterAppend | src/services/api/postService.js:18-20 | `filter` keeps input order: filtering a concatenation is the concatenation of the filtered parts |
| Seqs.FindFirst | src/services/api/postService.js:93 | `findIndex` returns the first index whose element satisfies the predicate, or none when no element does |
| Seqs.JsSlice | src/services/api/postService.js:57 | `slice` with non-negative bounds is the infix between the bounds clamped to the length; a slice whose end falls at or before its start, after negative bounds count from the end, is empty |
| Seqs.SortDesc | src/services/api/postService.js:27-30 | the comparator sort `(a, b) => key(b) - key(a)` returns a permutation sorted by descending key |
| Seqs.SortDescStable | src/services/api/postService.js:27-30 | the sort is stable: the elements of each key keep their original order |
| Seqs.SortedTwoClasses | src/components/pages/Search.jsx:53-57 | a sorted list with keys only `hi > lo` is all `hi` elements followed by all `lo` elements |
| Seqs.TopByKey | src/services/api/communityService.js:18-20 | sort-then-`slice(0, limit)` gives `min(limit, n)` elements sorted by key, drawn from the input, and no left-out element has a larger key than a chosen one |
| Ids.NextIdAsWritten | src/services/api/postService.js:77 | `Math.max(...ids) + 1` exceeds every identifier and is one more than an existing one, but yields no integer for an empty store |
| Ids.EmptyStoreGetsNoId | src/services/api/communityService.js:72 | an empty store gets no integer identifier from the expression as written |
| Ids.NextId | src/services/api/postService.js:77 | the corrected fresh identifier exceeds every existing one, is 1 for an empty store and agrees with the written expression otherwise |
| Text.Trim | src/components/pages/Submit.jsx:42 | `trim` returns an infix of the input that neither starts nor ends with white space, and every character it drops before or after that infix is white space |
| Text.BlankIffAllWhitespace | src/components/pages/Search.jsx:23 | `!s.trim()` holds exactly when every character is white space |
| Text.Lower | src/services/api/postService.js:19 | `toLowerCase` maps each character and keeps the length |
| Text.LowerIdempotent | src/services/api/communityService.js:35 | lower-casing twice is lower-casing once |
| Text.IndexOf | src/components/pages/Search.jsx:35 | the first position where the pattern occurs, or none when it occurs nowhere |
| Text.Contains | src/components/pages/Search.jsx:35 | `includes` holds exactly when the pattern occurs at some position |
| Text.ReplaceFirst | src/utils/formatTime.js:9 | `replace` with a string pattern rewrites only the first occurrence and leaves a string without one unchanged |
| Text.NatToString | src/components/pages/Submit.jsx:74 | `String(n)` is a non-empty digit string without a leading zero, except for 0 |
| Text.ParseShowRoundTrip | src/components/pages/PostDetail.jsx:29-34 | parsing the printed identifier gives the identifier back |
| Posts.ModeOf | src/services/api/postService.js:24-48 | the `switch` picks no sort for an absent key, "new", "top" and "rising" by name, and hot for any other key |
| Posts.Working | src/services/api/postService.js:14-21 | with a community filter, exactly the store posts of that community ignoring case; without one, the whole store in order |
| Posts.WorkingInStoreOrder | src/services/api/postService.js:14-21 | the working set keeps store order and multiplicity: it distributes over concatenation, keeps one post exactly when there is no filter or the post is of the community, and is a sub-multiset of the store |
| Posts.Ranked | src/services/api/postService.js:24-48 | a permutation of the working set: unchanged without a sort key, by `createdAt` for "new" and by net votes for "top", each descending |
| Posts.RankedStable | src/services/api/postService.js:24-48 | posts with equal sort keys keep their store order |
| Posts.Paginate | src/services/api/postService.js:52-63 | page and limit default to 1 and 10; the page is the slice from `(page-1)*limit` to `page*limit`, clamped to the list; `hasMore` iff `page*limit < total`; `total` is the filtered length; a page past the end is empty without more |
| Posts.Listing | src/services/api/postService.js:11-64 | `getAll` reports as total the size of the working set (the community's posts, or the whole store), and returns at most that many posts |
| Posts.ListingDrawnFromWorking | src/services/api/postService.js:11-64 | every post `getAll` returns is in the working set |
| Posts.PagesCover | src/services/api/postService.js:52-58 | reading pages 1 to n yields the first `n * limit` posts, each once |
| Posts.LastPageCompletes | src/services/api/postService.js:58 | once a page reports no more, the pages read hold the whole list |
| Posts.FindById | src/services/api/postService.js:67-72 | `getById` finds the first post with the identifier, or fails with "Post not found" exactly when there is none |
| Posts.FindOwnId | src/services/api/postService.js:69 | with unique identifiers, looking up a stored post's identifier finds that post |
| Posts.NextVote | src/services/api/postService.js:106-115 | repeating the current vote withdraws it; any other request becomes the vote |
| Posts.VoteKeepsOthers | src/services/api/postService.js:96-117 | voting changes only the counters and `userVote`, keeps other users' votes and leaves one active vote at most |
| Posts.VoteTwiceRestores | src/services/api/postService.js:96-117 | from no vote, the same vote twice restores the post |
| Posts.SwitchUpToDown | src/services/api/postService.js:99-112 | switching from up to down moves one vote from `upvotes` to `downvotes` |
| Posts.VoteKeepsConsistent | src/services/api/postService.js:96-117 | voting keeps the counters non-negative and counting the user's own vote |
| Posts.AfterVote | src/services/api/postService.js:91-118 | the store after `vote`: unchanged for an unknown identifier; identifiers, counter consistency and uniqueness kept |
| Posts.AfterSave | src/services/api/postService.js:120-127 | the store after `toggleSave`: only the `saved` flags differ, unchanged for an unknown identifier |
| Posts.SaveTwiceRestores | src/services/api/postService.js:120-127 | two `toggleSave` calls on one identifier restore the store |
| Posts.FindAfterVote | src/services/api/postService.js:93-117 | after a vote the post is found with the new vote applied |
| Posts.NewPost | src/services/api/postService.js:76-85 | the created post carries the caller's fields, one upvote by the user, no comments, unsaved, created now, consistent counters |
| Posts.PostService.constructor | src/services/api/postService.js:7-9 | the store starts as a copy of the initial posts |
| Posts.PostService.Vote | src/services/api/postService.js:91-118 | the undo-then-apply steps equal the declarative vote rule on the first matching post; "Post not found" and no change for an unknown identifier |
| Posts.PostService.ToggleSave | src/services/api/postService.js:120-127 | flips `saved` on the first matching post, or fails with no change |
| Posts.PostService.Create | src/services/api/postService.js:74-89 | the new post, with the next identifier, goes to the front of the store; consistency and uniqueness kept |
| Posts.PostService.Delete | src/services/api/postService.js:129-136 | removes the first matching post and keeps the rest in order, or fails with no change |
| Communities.Popular | src/services/api/communityService.js:16-23 | at most `limit` communities, most members first, with none left out that has more members than one returned |
| Communities.IndexById | src/services/api/communityService.js:43 | the first index with the identifier, or none |
| Communities.FindById | src/services/api/communityService.js:25-30 | the first community with the identifier, or "Community not found" exactly when there is none |
| Communities.FindByName | src/services/api/communityService.js:32-39 | the first community whose name equals the query ignoring case, or "Community not found" exactly when there is none |
| Communities.JoinRecord | src/services/api/communityService.js:46-52 | joining adds a member and marks the community joined, unless it is already joined; nothing else changes |
| Communities.LeaveRecord | src/services/api/communityService.js:60-66 | leaving removes a member and marks the community not joined, unless it is not joined |
| Communities.JoinIdempotent | src/services/api/communityService.js:47-50 | joining twice is joining once |
| Communities.JoinThenLeaveRestores | src/services/api/communityService.js:41-67 | join then leave restores a community one had not joined |
| Communities.LeaveThenJoinRestores | src/services/api/communityService.js:41-67 | leave then join restores a joined community |
| Communities.NewCommunity | src/services/api/communityService.js:71-78 | the created community has the caller's fields, one member, is joined, created now, with no rules |
| Communities.CommunityService.constructor | src/services/api/communityService.js:7-9 | the store starts as a copy of the initial communities |
| Communities.CommunityService.Join | src/services/api/communityService.js:41-53 | the join rule on the first matching community, or "Community not found" with no change |
| Communities.CommunityService.Leave | src/services/api/communityService.js:55-67 | the leave rule on the first matching community, or "Community not found" with no change |
| Communities.CommunityService.Create | src/services/api/communityService.js:69-82 | the new community, with the next identifier, is appended |
| Topics.Trending | src/services/api/topicService.js:11-18 | at most `limit` topics, most posts first, with none left out that has more posts than one returned |
| Topics.SearchTopics | src/services/api/topicService.js:25-32 | exactly the topics whose name contains the query ignoring case |
| Topics.SearchInStoreOrder | src/services/api/topicService.js:25-32 | the search keeps store order and multiplicity: it distributes over concatenation, keeps one topic exactly when its name matches, and is a sub-multiset of the store |
| Topics.EmptyQueryMatchesAll | src/services/api/topicService.js:27-29 | the empty query returns the whole store |
| PostsHook.OptimisticVote | src/hooks/usePosts.js:52-78 | the hook's local-counter update equals the store's vote rule |
| PostsHook.VoteInList | src/hooks/usePosts.js:50-81 | the vote updater keeps length and identifiers and touches no post with another identifier |
| PostsHook.SaveInList | src/hooks/usePosts.js:94-99 | the save updater keeps length and identifiers and touches no post with another identifier |
| PostsHook.SaveInListTwice | src/hooks/usePosts.js:94-99 | saving twice restores the list |
| PostsHook.UpdatersAreServiceRules | src/hooks/usePosts.js:50-99 | on a list with unique identifiers, the updaters are exactly the store's `vote` and `toggleSave` |
| PostsHook.ListingMirrors | src/hooks/usePosts.js:18-25 | every post of a page the store serves is the store's record for its identifier |
| PostsHook.VoteKeepsMirror | src/hooks/usePosts.js:50-83 | the optimistic vote keeps a replica in step with the store's vote |
| PostsHook.SaveKeepsMirror | src/hooks/usePosts.js:94-101 | the optimistic save keeps a replica in step with the store's `toggleSave` |
| PostsHook.UnknownPostUntouched | src/hooks/usePosts.js:50-99 | a post the store lacks is in no replica, so neither updater changes anything |
| PostsHook.SaveToastAsWrittenInverted | src/hooks/usePosts.js:103-104 | the message as written says "Post saved!" exactly when the post has just been unsaved |
| PostsHook.SaveToast | src/hooks/usePosts.js:104 | the corrected message says "Post saved!" exactly when the post is now saved |
| PostsHook.ListingIsFeedPage | src/hooks/usePosts.js:18-22 | the request for page n returns page n of the feed order |
| PostsHook.NextPageSynced | src/hooks/usePosts.js:28-29 | appending the requested page keeps the accumulator equal to the pages read, and a last page completes the feed |
| PostsHook.AfterFetch | src/hooks/usePosts.js:12-39 | a failure keeps posts, page and `hasMore` and sets the message or "Failed to fetch posts"; a success replaces (page 2) or appends (page + 1) and takes `hasMore` |
| PostsHook.PageFetchSynced | src/hooks/usePosts.js:24-32 | a reset fetch, or a fetch from an accumulator in step, leaves it in step, and `hasMore` false means the whole feed |
| PostsHook.FetchKeepsSynced | src/hooks/usePosts.js:17-32 | the same for the store's own listing of the hook's filters |
| PostsHook.FetchKeepsMirror | src/hooks/usePosts.js:24-30 | fetching keeps the accumulated posts a replica of a store with unique identifiers |
| PostsHook.PostsFeed.constructor | src/hooks/usePosts.js:6-10 | starts with no posts, loading, no error, more to come, page 1 |
| PostsHook.PostsFeed.FetchPosts | src/hooks/usePosts.js:12-39 | asks for page 1 or the current page and leaves the `AfterFetch` state |
| PostsHook.PostsFeed.LoadMore | src/hooks/usePosts.js:41-45 | fetches the next page exactly when not loading and more remain; otherwise nothing changes |
| PostsHook.PostsFeed.HandleVote | src/hooks/usePosts.js:47-89 | optimistic vote, then the store's vote; on refusal the failure message and a reset fetch; replicas stay in step |
| PostsHook.PostsFeed.HandleSave | src/hooks/usePosts.js:91-110 | optimistic save, then `toggleSave` and a message matching the new state; on refusal the failure message and a reset fetch |
| CommunitiesHook.Flipped | src/hooks/useCommunities.js:56-61 | the flip toggles `isJoined` and moves `memberCount` by one toward the new state, nothing else |
| CommunitiesHook.FlippedIsStoreRule | src/hooks/useCommunities.js:46-64 | the flip is the store's leave on a joined community and its join otherwise |
| CommunitiesHook.FlipJoin | src/hooks/useCommunities.js:55-64 | only communities with the identifier are flipped |
| CommunitiesHook.FlipJoinTwice | src/hooks/useCommunities.js:55-64 | two toggles restore `isJoined` and `memberCount` |
| CommunitiesHook.MirroredDecision | src/hooks/useCommunities.js:44-46 | with the list in step, the hook leaves exactly when the store's record is joined |
| CommunitiesHook.FlipKeepsMirror | src/hooks/useCommunities.js:44-64 | with the list in step, the flip after the store's join or leave keeps it in step |
| CommunitiesHook.CommunitiesView.constructor | src/hooks/useCommunities.js:7-10 | starts with no popular communities, no current community, loading and no error |
| CommunitiesHook.CommunitiesView.FetchCommunity | src/hooks/useCommunities.js:12-25 | the community found by name, or the store's message with the old community kept |
| CommunitiesHook.CommunitiesView.FetchPopular | src/hooks/useCommunities.js:26-39 | the ten most popular communities, or the message or "Failed to fetch communities" with the old list kept |
| CommunitiesHook.CommunitiesView.HandleJoin | src/hooks/useCommunities.js:41-70 | leave when the hook's copy is joined, else join; on success the message and the flip; on the store's refusal only "Failed to update community membership" |
| SearchPage.Candidates | src/components/pages/Search.jsx:33 | the search looks through the first hundred posts in store order |
| SearchPage.RequestGivesCandidates | src/components/pages/Search.jsx:33 | `getAll({ limit: 100 })` returns exactly those posts |
| SearchPage.Matching | src/components/pages/Search.jsx:34-39 | exactly the candidates whose title, content, community or author contains the query ignoring case |
| SearchPage.MatchingInOrder | src/components/pages/Search.jsx:34-39 | the matches keep candidate order and multiplicity: they distribute over concatenation, keep one candidate exactly when it matches, and are a sub-multiset of the candidates |
| SearchPage.Relevance | src/components/pages/Search.jsx:54-55 | 2 exactly for a title match, 1 otherwise |
| SearchPage.SortResults | src/components/pages/Search.jsx:42-58 | a permutation ordered by `createdAt` for "new", by net votes for "top", by relevance otherwise |
| SearchPage.Results | src/components/pages/Search.jsx:33-60 | the results are a permutation of the filtered list, and every one matches |
| SearchPage.RelevanceGroups | src/components/pages/Search.jsx:50-57 | relevance order is every title match, then every other match, each group in filtered order |
| SearchPage.ResultsMirror | src/components/pages/Search.jsx:33-60 | the results are a replica of a store with unique identifiers |
| SearchPage.SearchView.constructor | src/components/pages/Search.jsx:14-20 | the query from the address, sorted by relevance, no posts, loading and no error |
| SearchPage.SearchView.SearchPosts | src/components/pages/Search.jsx:22-67 | a blank query only ends loading; otherwise the results, or the message or "Search failed" with the old results kept |
| SearchPage.SearchView.HandleVote | src/components/pages/Search.jsx:69-110 | optimistic vote, then the store's vote; on refusal the message, the end of loading and a fresh search, which keeps the optimistic list for a blank query; replicas stay in step |
| SearchPage.SearchView.HandleSave | src/components/pages/Search.jsx:112-130 | optimistic save, then `toggleSave` and a message matching the new state; on refusal the message, the end of loading and a fresh search, which keeps the optimistic list for a blank query |
| PostDetailPage.LoadPost | src/components/pages/PostDetail.jsx:29-35 | "Invalid post ID in URL…" exactly for an empty or non-digit identifier; otherwise `getById` of its decimal value |
| PostDetailPage.PostLinkRoundTrip | src/components/pages/PostDetail.jsx:29-34 | the decimal string of a stored post's non-negative identifier passes the check and loads that post |
| PostDetailPage.RouteParams | src/router/index.jsx:44 | the post route yields exactly the parameters `communityName` and `postId`, holding the two address segments |
| PostDetailPage.Param | src/components/pages/PostDetail.jsx:17 | `useParams()[key]` is the parameter of that name, `undefined` exactly when the route has none; the page reads the key `id`, the route defines `postId` |
| PostDetailPage.LoadParam | src/components/pages/PostDetail.jsx:29-35 | a missing parameter gets the validation message; a present one is checked and looked up as `LoadPost` does |
| PostDetailPage.EveryPostPageInvalidAsWritten | src/components/pages/PostDetail.jsx:17 | as written, every post page shows "Invalid post ID in URL…", whatever the address |
| PostDetailPage.PostPageOpensStoredPost | src/router/index.jsx:44 | reading `postId`, the page whose address ends in a stored post's decimal identifier loads that post |
| PostDetailPage.SaveMessageReportsNewState | src/components/pages/PostDetail.jsx:89 | reading the old state and inverting it reports the post's new state |
| PostDetailPage.PostDetailView.constructor | src/components/pages/PostDetail.jsx:17-21 | the identifier from the route's `postId` parameter, no post, loading and no error; the class invariant holds |
| PostDetailPage.PostDetailView.FetchPost | src/components/pages/PostDetail.jsx:23-42 | the loaded post, or the message with the old post kept; a shown post stays in step |
| PostDetailPage.PostDetailView.HandleVote | src/components/pages/PostDetail.jsx:43-81 | nothing without a post; otherwise the vote rule on the post and the store's vote; on refusal the message, and a fresh fetch that fails with "Post not found", keeps the optimistic post and ends loading |
| PostDetailPage.PostDetailView.HandleSave | src/components/pages/PostDetail.jsx:83-94 | nothing without a post; otherwise the toggle, the store's `toggleSave` and the message; on refusal a fresh fetch that fails with "Post not found", keeps the toggled post and ends loading |
| SubmitPage.Check | src/components/pages/Submit.jsx:42-55 | the form passes exactly when the title is not blank and a text, link, image or video post has a non-blank body; the first failing check's message is shown |
| SubmitPage.Payload | src/components/pages/Submit.jsx:60-70 | trimmed title and content, the type, a media and thumbnail address only for image and video, the fixed author and `c_` community identifier |
| SubmitPage.AcceptedPayloadHasText | src/components/pages/Submit.jsx:42-62 | an accepted form gives a non-empty title that starts and ends with a visible character, and a non-empty body |
| SubmitPage.CreatedPostOpens | src/components/pages/Submit.jsx:72-74 | in a store of non-negative identifiers, the new post's identifier is positive, its address ends in the identifier's decimal string, and that string passes the check and loads the new post |
| SubmitPage.HandleSubmit | src/components/pages/Submit.jsx:39-81 | the first failing check's message and no change, or the new post at the front of the store, "Post created successfully!" and its address |
| VoteWidget.UpClick | src/components/molecules/VoteControls.jsx:18-20 | the up arrow sends a clear request exactly when the user has upvoted, and "up" otherwise |
| VoteWidget.DownClick | src/components/molecules/VoteControls.jsx:22-24 | the down arrow sends a clear request exactly when the user has downvoted, and "down" otherwise |
| VoteWidget.ClicksAgreeWithVoteRule | src/components/molecules/VoteControls.jsx:18-24 | each arrow's request has the store's effect of "up" or "down" |
| VoteWidget.ClickMovesScore | src/components/molecules/VoteControls.jsx:16-24 | on consistent counters the up arrow moves the score by +1, +2 or -1, and the down arrow mirrors it |
| VoteWidget.ScoreColor | src/components/molecules/VoteControls.jsx:29-32 | upvote and downvote colours exactly for the user's own vote; otherwise a grey by the score's sign |
| FormatTime.DaysDiff | src/utils/formatTime.js:16 | whole days elapsed, rounded down |
| FormatTime.Bucket | src/utils/formatTime.js:3-33 | today's phrase without "about ", "yesterday", then days up to 7, weeks up to 30 days, months up to 365 days and years, each count the floor quotient |
| FormatTime.FormatTimeAgo | src/utils/formatTime.js:3-34 | in terms of the whole days elapsed: today's phrase without "about ", "yesterday", "<d> days ago" for every count up to 7, and the floor count of weeks, months or years beyond, plural above one |
| FormatTime.EarlierDaysElapsed | src/utils/formatTime.js:7-16 | a past time that is neither today nor yesterday is at least one whole day back |
| FormatTime.OneDaysAgo | src/utils/formatTime.js:18-20 | a time less than two days back on the day before yesterday is labelled "1 days ago" |
| FormatTime.CorrectedCountAgrees | src/utils/formatTime.js:18-33 | with the correction, older past times get a count of at least one, with the unit singular exactly for one |

## Left out

- The mock JSON data the stores copy at start-up is a parameter of the store constructors (`Posts.PostService.constructor`, `Communities.CommunityService.constructor`), not fixed contents.
- Network delay, `async` interleaving and React's batching are not modelled. Each hook or page handler runs to completion against the store, in program order. A refetch that the source starts without awaiting is modelled as finishing before the handler returns. State read through a render closure is the state when the handler starts.
- The "rising" and "hot" orderings are floating-point formulas over the clock. They are modelled as integer scores passed in through `Posts.Scores`.
- The `{ ...post }` copies and `map` copies of the stores are values in the model, so aliasing does not arise.
- `getAll` of the community and topic stores only copies the store. It is the stored sequence itself and has no member of its own.
- Timestamps are integers rather than ISO strings, and `Date` parsing is not modelled.
  - `isToday` and `isYesterday` (date-fns) use a fixed local-time offset `tz`, so daylight-saving changes are not modelled.
  - The phrase from `formatDistanceToNow` is an input.
- `toLowerCase` maps only the ASCII letters.
- `trim` uses the ECMAScript white-space and line-terminator set.
- The `loading`/`submitting` flags of `Submit.jsx`, and the `communities` state of `useCommunities.js`, are not modelled. The `submitting` flag returns to false before `handleSubmit` ends, and no code in the core writes `communities`.
- The "Failed to create post" path of `Submit.jsx:75-77` cannot occur in the model, because `create` never fails here.
- A route parameter is a string when present and `undefined` otherwise (`PostDetailPage.LoadParam`). The source's `typeof postId === 'number'` branch is unreachable for a router parameter.
- PostDetailPage.PostDetailView.constructor: takes the identifier from the route's `postId` parameter, the corrected reading; as written the page reads `id`, which the route never defines, and shows the validation message on every address (see Findings).
- The source's `post.id === postId` alternative in `usePosts.js:51,95,103` is not modelled. Stored posts have only `Id`.
- PostDetailPage.PostDetailView.HandleVote: requires the class invariant `Valid()`, which the constructor establishes and every method keeps: a shown post is the one the address names.
- PostDetailPage.PostDetailView.HandleSave: requires the same invariant `Valid()`, for the same reason.
- PostDetailPage.PostDetailView.FetchPost: requires the same invariant `Valid()`, for the same reason.
- Communities.Popular: the length of the result is stated only for a non-negative `limit`. A negative `limit` makes `slice` count from the end.
- Topics.Trending: the length is stated only for a non-negative `limit`, for the same reason.
- Posts.PostService.Create: takes its identifier from the corrected `Ids.NextId`, so a post created in an empty store gets `Id` 1 where the source's expression gives `-Infinity` (see Findings).
- Communities.CommunityService.Create: uses the same corrected `Ids.NextId`, so a community created in an empty store gets identifier 1 where the source gives `-Infinity`.
- SubmitPage.HandleSubmit: through `Posts.PostService.Create`, navigates to `/r/<community>/comments/1` after a submission to an empty store, where the source's address names `-Infinity`.
- PostsHook.PostsFeed.HandleSave: shows the corrected message `PostsHook.SaveToast`, which reports the state after the toggle; the source shows the inverted message that `PostsHook.SaveToastAsWrittenInverted` models (see Findings).
- SearchPage.SearchView.HandleSave: shows the corrected message `PostsHook.SaveToast` in the same way, where the source shows the inverted one.

## Findings

| source | as written | input that shows it | evidently intended | confidence | as-written member | corrected member |
|---|---|---|---|---|---|---|
| src/services/api/postService.js:77 | `Math.max(...this.posts.map(p => p.Id)) + 1` (also `communityService.js:72`) | a store emptied by `delete`: `Math.max()` is `-Infinity`, so the new post's `Id` is `-Infinity` | identifier 1 for an empty store, one more than the largest otherwise | not executed | Ids.EmptyStoreGetsNoId | Ids.NextId |
| src/hooks/usePosts.js:103-104 | the message reads `posts`, captured before the optimistic toggle (also `Search.jsx:124-125`) | saving an unsaved post shows "Post unsaved!" | report the state after the toggle | not executed | PostsHook.SaveToastAsWrittenInverted | PostsHook.SaveToast |
| src/utils/formatTime.js:18-20 | `${daysDiff} days ago` for every count | `tz = 0`, now `2*86400000 + 1000`, date `86400000 - 1000`: neither today nor yesterday, `daysDiff = 1`, label "1 days ago" | "1 day ago", as the week, month and year labels do | not executed | FormatTime.OneDaysAgo | FormatTime.CorrectedCountAgrees |
| src/components/pages/PostDetail.jsx:17 | `const { id: postId } = useParams()`, while the route `r/:communityName/comments/:postId` (`router/index.jsx:44`) defines no `id` | any post address, such as `/r/webdev/comments/1`: `postId` is `undefined`, so the page shows "Invalid post ID in URL…" | read the `postId` parameter, so a post's address opens it | not executed | PostDetailPage.EveryPostPageInvalidAsWritten | PostDetailPage.PostPageOpensStoredPost |

/** The post page of src/components/pages/PostDetail.jsx: the identifier from the address
    is checked to be a decimal number before the store is asked for the post, and the
    page's single post gets the same optimistic vote and save updates as the lists. */
module PostDetailPage {
  import opened Wrappers
  import opened Text
  import opened Posts
  import opened Toasts
  import PostsHook

  const InvalidPostId := "Invalid post ID in URL. Please check the link and try again."

  /** The address parameter is present, non-empty and matches `/^\d+$/`. */
  predicate ValidPostId(postId: string) {
    postId != "" && AllDigits(postId)
  }

  /** What `fetchPost` obtains: the validation message for a malformed identifier, else
      the store's `getById` of its decimal value. */
  function LoadPost(store: seq<Post>, postId: string): (r: Result<Post>)
    ensures r == Err(InvalidPostId) <==> !ValidPostId(postId)
    ensures r.Ok? ==> ValidPostId(postId) && r.value.id == ParseDigits(postId) && r.value in store
    ensures ValidPostId(postId) ==> r == FindById(store, ParseDigits(postId))
  {
    if !ValidPostId(postId) then Err(InvalidPostId) else FindById(store, ParseDigits(postId))
  }

  /** The address the application builds for a post (`String(post.Id)`) passes the check
      and leads back to the post. */
  lemma PostLinkRoundTrip(store: seq<Post>, k: nat)
    requires UniqueIds(store) && k < |store| && store[k].id >= 0
    ensures LoadPost(store, NatToString(store[k].id)) == Ok(store[k])
  {
    ParseShowRoundTrip(store[k].id);
    FindOwnId(store, k);
  }

  /** The key the route `r/:communityName/comments/:postId` gives the post identifier. */
  const RouteKey := "postId"

  /** The key the page reads, as written (`const { id: postId } = useParams()`). */
  const PageKeyAsWritten := "id"

  /** The parameters the router matches for `r/:communityName/comments/:postId`. */
  function RouteParams(community: string, segment: string): (m: map<string, string>)
    ensures m.Keys == {"communityName", RouteKey}
    ensures m["communityName"] == community && m[RouteKey] == segment
  {
    map["communityName" := community, RouteKey := segment]
  }

  /** `useParams()[key]`: the route parameter named `key`, or `undefined` (None) when the
      route has none. */
  function Param(params: map<string, string>, key: string): (r: Option<string>)
    ensures r.Some? <==> key in params
    ensures r.Some? ==> r.value == params[key]
  {
    if key in params then Some(params[key]) else None
  }

  /** `fetchPost` on a parameter that may be `undefined`: `!postId` rejects a missing one
      with the same message as a malformed one. */
  function LoadParam(store: seq<Post>, param: Option<string>): (r: Result<Post>)
    ensures param.None? ==> r == Err(InvalidPostId)
    ensures param.Some? ==> r == LoadPost(store, param.value)
  {
    match param
    case None => Err(InvalidPostId)
    case Some(postId) => LoadPost(store, postId)
  }

  /** As written, the post page never shows a post: whatever the address, the route gives
      no `id` parameter, and the page shows the validation message. */
  lemma EveryPostPageInvalidAsWritten(store: seq<Post>, community: string, segment: string)
    ensures LoadParam(store, Param(RouteParams(community, segment), PageKeyAsWritten)) == Err(InvalidPostId)
  {
    assert "id" != "communityName" && "id" != "postId" by {
      assert "id"[1] != "communityName"[1] && "id"[1] != "postId"[1];
    }
  }

  /** Reading the route's own `postId` parameter instead, the page for a stored post's address
      loads that post. */
  lemma PostPageOpensStoredPost(store: seq<Post>, community: string, k: nat)
    requires UniqueIds(store) && k < |store| && store[k].id >= 0
    ensures LoadParam(store, Param(RouteParams(community, NatToString(store[k].id)), RouteKey)) == Ok(store[k])
  {
    PostLinkRoundTrip(store, k);
  }

  /** The save message: it reads the post as it was before the toggle, so it announces
      the opposite of the old state, which is the new state. */
  function SaveMessage(before: Post): string {
    if before.saved then "Post unsaved!" else "Post saved!"
  }

  /** The message agrees with the post the store holds after the toggle. */
  lemma SaveMessageReportsNewState(before: Post)
    ensures SaveMessage(before) == PostsHook.SaveToast(before.(saved := !before.saved))
  {
  }

  /** The page's state for one identifier from the address. */
  class PostDetailView {
    const postId: string
    var post: Option<Post>
    var loading: bool
    var error: Option<string>

    /** A shown post is the one the address names. */
    predicate Valid()
      reads this
    {
      post.Some? ==> ValidPostId(postId) && post.value.id == ParseDigits(postId)
    }

    /** The shown post is the store's current record for its identifier. */
    predicate InSync(store: seq<Post>)
      reads this
    {
      post.Some? ==> FindById(store, post.value.id) == Ok(post.value)
    }

    constructor (postId: string)
      ensures this.postId == postId && post.None? && loading && error.None?
      ensures Valid()
    {
      this.postId := postId;
      post := None;
      loading := true;
      error := None;
    }

    /** `fetchPost()`: the post, or the message of the failed check or lookup; a failure
        leaves the post shown before. */
    method FetchPost(service: PostService)
      requires Valid()
      modifies this
      ensures Valid() && !loading
      ensures LoadPost(service.posts, postId).Ok? ==>
        post == Some(LoadPost(service.posts, postId).value) && error.None?
      ensures LoadPost(service.posts, postId).Err? ==>
        post == old(post) && error == Some(LoadPost(service.posts, postId).message)
      ensures LoadPost(service.posts, postId).Ok? || old(InSync(service.posts)) ==> InSync(service.posts)
    {
      loading := true;
      error := None;
      var response := LoadPost(service.posts, postId);
      if response.Err? {
        error := Some(if response.message == "" then "Failed to load post" else response.message);
      } else {
        post := Some(response.value);
      }
      loading := false;
    }

    /** `handleVote(_, voteType)`: nothing without a post; otherwise the optimistic vote,
        then the store's `vote`, and on its refusal the notification and a fresh fetch. */
    method HandleVote(service: PostService, voteType: Vote) returns (toast: Option<Toast>)
      requires Valid()
      modifies this, service
      ensures Valid()
      ensures old(post).None? ==>
        toast.None? && post.None? && service.posts == old(service.posts) && error == old(error)
      ensures old(post).Some? ==> service.posts == AfterVote(old(service.posts), ParseDigits(postId), voteType)
      ensures old(post).None? ==> loading == old(loading)
      ensures old(post).Some? && FindIndex(old(service.posts), ParseDigits(postId)).Some? ==>
        toast.None? && post == Some(Voted(old(post).value, voteType)) && error == old(error)
        && loading == old(loading)
      ensures old(post).Some? && FindIndex(old(service.posts), ParseDigits(postId)).None? ==>
        && toast == Some(Failure("Failed to vote on post")) && error == Some(PostNotFound)
        && post == Some(Voted(old(post).value, voteType)) && !loading
      ensures old(InSync(service.posts)) ==> InSync(service.posts)
    {
      if post.None? {
        return None;
      }
      post := Some(PostsHook.OptimisticVote(post.value, voteType));
      var id := ParseDigits(postId);
      if FindIndex(service.posts, id).Some? {
        FindAfterVote(service.posts, id, voteType);
      }
      var r := service.Vote(id, voteType);
      if r.Err? {
        toast := Some(Failure("Failed to vote on post"));
        FetchPost(service);
      } else {
        toast := None;
      }
    }

    /** `handleSave()`: nothing without a post; otherwise the optimistic toggle, then the
        store's `toggleSave` and the message, and on its refusal the notification and a
        fresh fetch. */
    method HandleSave(service: PostService) returns (toast: Option<Toast>)
      requires Valid()
      modifies this, service
      ensures Valid()
      ensures old(post).None? ==>
        toast.None? && post.None? && service.posts == old(service.posts) && error == old(error)
      ensures old(post).Some? ==> service.posts == AfterSave(old(service.posts), ParseDigits(postId))
      ensures old(post).None? ==> loading == old(loading)
      ensures old(post).Some? && FindIndex(old(service.posts), ParseDigits(postId)).Some? ==>
        && post == Some(old(post).value.(saved := !old(post).value.saved)) && error == old(error)
        && toast == Some(Success(SaveMessage(old(post).value))) && loading == old(loading)
      ensures old(post).Some? && FindIndex(old(service.posts), ParseDigits(postId)).None? ==>
        && toast == Some(Failure("Failed to save post")) && error == Some(PostNotFound)
        && post == Some(old(post).value.(saved := !old(post).value.saved)) && !loading
      ensures old(InSync(service.posts)) ==> InSync(service.posts)
    {
      if post.None? {
        return None;
      }
      var before := post.value;
      post := Some(before.(saved := !before.saved));
      var r := service.ToggleSave(ParseDigits(postId));
      if r.Err? {
        toast := Some(Failure("Failed to save post"));
        FetchPost(service);
      } else {
        toast := Some(Success(SaveMessage(before)));
      }
    }
  }
}

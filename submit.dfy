/** The submission form of src/components/pages/Submit.jsx: the checks made in order
    before anything is sent, the post payload built from the trimmed fields, and the
    creation followed by the move to the new post's address. */
module SubmitPage {
  import opened Wrappers
  import opened Text
  import opened Posts
  import opened Toasts
  import PostDetailPage
  import Ids

  /** The form fields; `content` holds the text of a text post and the address of a link,
      image or video post. */
  datatype Form = Form(title: string, content: string, community: string, mediaUrl: string)

  /** The form as the page first shows it. */
  const InitialForm := Form("", "", "general", "")

  predicate IsUrlType(postType: string) {
    postType == "link" || postType == "image" || postType == "video"
  }

  predicate IsMediaType(postType: string) {
    postType == "image" || postType == "video"
  }

  /** The first check that fails, as the message shown, or `None` when the form may be
      sent: a blank title, then a blank body of a text post, then a blank address. */
  function Check(postType: string, form: Form): (r: Option<string>)
    ensures IsBlank(form.title) ==> r == Some("Title is required")
    ensures !IsBlank(form.title) && postType == "text" && IsBlank(form.content) ==>
      r == Some("Content is required for text posts")
    ensures !IsBlank(form.title) && IsUrlType(postType) && IsBlank(form.content) ==> r == Some("URL is required")
    ensures r.None? <==> !IsBlank(form.title) && ((postType == "text" || IsUrlType(postType)) ==> !IsBlank(form.content))
  {
    if IsBlank(form.title) then Some("Title is required")
    else if postType == "text" && IsBlank(form.content) then Some("Content is required for text posts")
    else if IsUrlType(postType) && IsBlank(form.content) then Some("URL is required")
    else None
  }

  /** The payload handed to the store's `create`. */
  function Payload(postType: string, form: Form): (d: PostData)
    ensures d.id.None? && d.title == Trim(form.title) && d.content == Some(Trim(form.content))
    ensures d.contentType == postType
    ensures IsMediaType(postType) ==> d.mediaUrl == Some(Trim(form.content)) && d.thumbnailUrl == d.mediaUrl
    ensures !IsMediaType(postType) ==> d.mediaUrl.None? && d.thumbnailUrl.None?
    ensures d.author == "threaduser" && d.authorId == "u_current"
    ensures d.community == form.community && d.communityId == "c_" + form.community
  {
    var content := Trim(form.content);
    var media: Option<string> := if IsMediaType(postType) then Some(content) else None;
    PostData(None, Trim(form.title), Some(content), postType, media, media,
             "threaduser", "u_current", form.community, "c_" + form.community)
  }

  /** A payload that passes the checks has a title, and a body for every known post type,
      that are non-empty and start and end with a visible character. */
  lemma AcceptedPayloadHasText(postType: string, form: Form)
    requires Check(postType, form).None?
    ensures var d := Payload(postType, form);
      d.title != [] && !IsWhitespace(d.title[0]) && !IsWhitespace(d.title[|d.title| - 1])
    ensures postType == "text" || IsUrlType(postType) ==> Payload(postType, form).content.value != []
  {
  }

  /** The address of a post's page. */
  function PathOf(p: Post): string {
    "/r/" + p.community + "/comments/" + IntToString(p.id)
  }

  /** In a store of non-negative identifiers, the post just created gets a positive
      identifier, and the identifier in its address leads the post page back to it. */
  lemma CreatedPostOpens(store: seq<Post>, data: PostData, now: int)
    requires data.id.None?
    requires forall i :: 0 <= i < |store| ==> store[i].id >= 0
    ensures var p := NewPost(data, Ids.NextId(IdsOf(store)), now);
      && p.id > 0
      && PathOf(p) == "/r/" + p.community + "/comments/" + NatToString(p.id)
      && PostDetailPage.LoadPost([p] + store, NatToString(p.id)) == Ok(p)
  {
    var ids := IdsOf(store);
    var p := NewPost(data, Ids.NextId(ids), now);
    if ids != [] {
      assert ids[0] >= 0;
    }
    ParseShowRoundTrip(p.id);
    assert FindIndex([p] + store, p.id) == Some(0);
  }

  /** `handleSubmit()`: the first failing check's message and nothing sent, or the new
      post in the store, the success message and the address to move to. */
  method HandleSubmit(service: PostService, postType: string, form: Form, now: int)
    returns (toast: Toast, path: Option<string>)
    modifies service
    ensures Check(postType, form).Some? ==>
      && toast == Failure(Check(postType, form).value) && path.None?
      && service.posts == old(service.posts)
    ensures Check(postType, form).None? ==>
      var p := NewPost(Payload(postType, form), Ids.NextId(IdsOf(old(service.posts))), now);
      && service.posts == [p] + old(service.posts)
      && toast == Success("Post created successfully!") && path == Some(PathOf(p))
  {
    var problem := Check(postType, form);
    if problem.Some? {
      return Failure(problem.value), None;
    }
    var newPost := service.Create(Payload(postType, form), now);
    toast := Success("Post created successfully!");
    path := Some(PathOf(newPost));
  }
}

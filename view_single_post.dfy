// The single-post page of app/components/ViewSinglePost.js: which view it
// shows, who may edit or delete the post, and what a delete leads to.
module ViewSinglePost {
  import opened Js
  import Session

  const MsgPostDeleted := "The post was successfully deleted."
  const DeleteSuccess := "Success"

  datatype Author = Author(username: string, avatar: string)

  datatype Post = Post(id: string, title: string, body: string, author: Author)

  /** The page's two pieces of state. `post` is `None` before the fetch and
      when the server answered with a falsy value (no such post). */
  datatype PageState = PageState(isLoading: bool, post: Option<Post>)

  datatype View = LoadingView | NotFoundView | PostView(post: Post)

  /** What the fetch of /post/<id> produced. */
  datatype FetchResponse = FetchFailed | Fetched(data: Option<Post>)

  /** The page starts loading, with no post. */
  function InitialState(): (s: PageState)
    ensures ChooseView(s) == LoadingView && s.post.None?
  {
    PageState(true, None)
  }

  /** The view the page renders: not-found once loaded without a post,
      the loading placeholder while loading, the post otherwise. */
  function ChooseView(s: PageState): (v: View)
    ensures v.LoadingView? <==> s.isLoading
    ensures v.NotFoundView? <==> !s.isLoading && s.post.None?
    ensures v.PostView? <==> !s.isLoading && s.post.Some?
    ensures v.PostView? ==> v.post == s.post.value
  {
    if !s.isLoading && s.post.None? then NotFoundView
    else if s.isLoading then LoadingView
    else PostView(s.post.value)
  }

  /** The fetch resolves: a response sets the post and then ends loading; a
      failure is only logged and the page keeps loading. */
  method OnFetchResponse(s: PageState, response: FetchResponse) returns (t: PageState)
    ensures response.Fetched? ==> t == PageState(false, response.data)
    ensures response.FetchFailed? ==> t == s
  {
    t := s;
    if response.Fetched? {
      t := t.(post := response.data);   // setPost
      t := t.(isLoading := false);      // setIsLoading
    }
  }

  /** `checkIfIsOwner`: a logged-in viewer whose username equals the
      author's (a `null` username equals no author). */
  function CheckIfIsOwner(app: Session.State, p: Post): (owner: bool)
    ensures !app.loggedIn ==> !owner
    ensures app.loggedIn ==> (owner <==> app.user.username == Some(p.author.username))
  {
    if app.loggedIn then app.user.username == Some(p.author.username) else false
  }

  /** The edit and delete controls appear only on the post view, for its owner. */
  predicate ShowsOwnerControls(app: Session.State, s: PageState) {
    ChooseView(s).PostView? && CheckIfIsOwner(app, ChooseView(s).post)
  }

  /** The link to the editor. */
  function EditLink(p: Post): (path: string)
    ensures |path| == |p.id| + 11
    ensures path[..6] == "/post/" && path[|path| - 5..] == "/edit"
    ensures path[6..|path| - 5] == p.id
  {
    "/post/" + p.id + "/edit"
  }

  /** A profile link; a `null` username is spelled "null" by the template literal. */
  function ProfileLink(username: Option<string>): (path: string)
    ensures |path| >= 9 && path[..9] == "/profile/"
    ensures username.Some? ==> path[9..] == username.value
  {
    "/profile/" + ToJsString(username)
  }

  /** The links from the post to its author. */
  function AuthorLink(p: Post): string {
    ProfileLink(Some(p.author.username))
  }

  /** The server's answer to the delete request. */
  datatype DeleteResponse = DeleteFailed | DeleteAnswered(data: string)

  /** The delete request: DELETE /post/<id> carrying the viewer's token. */
  datatype DeleteRequest = DeleteRequest(path: string, token: Option<string>)

  /** `handleDelete`: ask for confirmation; if confirmed, send the delete
      and, only for a response of exactly "Success", dispatch the flash
      message to the application state and go to the viewer's profile.
      Returns the request sent, the application state after the dispatch,
      and the path navigated to. */
  method HandleDelete(confirmed: bool, routeId: string, app: Session.State, response: DeleteResponse)
    returns (request: Option<DeleteRequest>, app': Session.State, navigateTo: Option<string>)
    ensures request.Some? <==> confirmed
    ensures confirmed ==> request.value == DeleteRequest("/post/" + routeId, app.user.token)
    ensures navigateTo.Some? <==> confirmed && response == DeleteAnswered(DeleteSuccess)
    ensures navigateTo.Some? ==> navigateTo.value == ProfileLink(app.user.username)
    ensures navigateTo.Some? ==> app' == Session.Next(app, Session.FlashMessage(MsgPostDeleted))
    ensures navigateTo.None? ==> app' == app
  {
    request, app', navigateTo := None, app, None;
    var areYouSure := confirmed;
    if areYouSure {
      request := Some(DeleteRequest("/post/" + routeId, app.user.token));
      match response {
        case DeleteAnswered(data) =>
          if data == DeleteSuccess {
            app' := Session.Reduce(app, Session.FlashMessage(MsgPostDeleted));
            navigateTo := Some(ProfileLink(app.user.username));
          }
        case DeleteFailed =>
      }
    }
  }

  // ---------------------------------------------------------------------
  // Properties

  /** The page starts in the loading view; once a response has arrived it
      shows the post, or not-found for a falsy response. */
  lemma LoadingUntilFetched(data: Option<Post>)
    ensures ChooseView(InitialState()) == LoadingView
    ensures ChooseView(PageState(false, data)) == if data.None? then NotFoundView else PostView(data.value)
  {
  }

  /** A guest never sees the owner controls; a logged-in viewer sees them on
      a loaded post exactly when they wrote it. */
  lemma OwnerControlsOnlyForAuthor(app: Session.State, s: PageState)
    ensures !app.loggedIn ==> !ShowsOwnerControls(app, s)
    ensures app.loggedIn && !s.isLoading && s.post.Some? ==>
      (ShowsOwnerControls(app, s) <==> app.user.username == Some(s.post.value.author.username))
    ensures s.isLoading || s.post.None? ==> !ShowsOwnerControls(app, s)
  {
  }

  /** Distinct posts have distinct edit links, and distinct authors distinct
      profile links. */
  lemma LinksAreInjective(p: Post, q: Post)
    ensures EditLink(p) == EditLink(q) ==> p.id == q.id
    ensures AuthorLink(p) == AuthorLink(q) ==> p.author.username == q.author.username
  {
    if EditLink(p) == EditLink(q) {
      calc {
        p.id;
        EditLink(p)[6..|EditLink(p)| - 5];
        EditLink(q)[6..|EditLink(q)| - 5];
        q.id;
      }
    }
    if AuthorLink(p) == AuthorLink(q) {
      assert AuthorLink(p)[9..] == AuthorLink(q)[9..];
    }
  }
}

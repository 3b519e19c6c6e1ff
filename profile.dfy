// The profile page of app/components/Profile.js: the loaded profile and the
// follow / stop-following flow, each request keyed on its own counter.
module Profile {
  import opened Js
  import Session

  /** The username shown until the profile has loaded. */
  const Placeholder := "..."
  const PlaceholderAvatar := "https://gravatar.com/avatar/placeholder?s=128"

  /** The counts start as "" in the source; JavaScript's `++` and `--` treat
      "" as 0, so 0 stands for them here. */
  datatype Counts = Counts(postCount: int, followerCount: int, followingCount: int)

  datatype ProfileData = ProfileData(profileUsername: string, profileAvatar: string, isFollowing: bool, counts: Counts)

  datatype State = State(
    followActionLoading: bool,
    startFollowingRequestCount: nat,
    stopFollowingRequestCount: nat,
    profileData: ProfileData)

  /** The updaters the page passes to `setState`. */
  datatype Update =
    | ProfileLoaded(data: ProfileData)
    | StartFollowing
    | StopFollowing
    | FollowActionStarted
    | FollowSucceeded
    | UnfollowSucceeded

  /** The page starts not loading, with both counters at 0 and the
      placeholder profile, for which neither button is shown. */
  function InitialState(): (s: State)
    ensures !s.followActionLoading && s.startFollowingRequestCount == 0 && s.stopFollowingRequestCount == 0
    ensures s.profileData.profileUsername == Placeholder && !s.profileData.isFollowing
    ensures forall app: Session.State :: !ShowFollow(app, s.profileData) && !ShowStopFollowing(app, s.profileData)
  {
    State(false, 0, 0, ProfileData(Placeholder, PlaceholderAvatar, false, Counts(0, 0, 0)))
  }

  function Next(s: State, u: Update): State {
    match u
    case ProfileLoaded(data) => s.(profileData := data)
    case StartFollowing => s.(startFollowingRequestCount := s.startFollowingRequestCount + 1)
    case StopFollowing => s.(stopFollowingRequestCount := s.stopFollowingRequestCount + 1)
    case FollowActionStarted => s.(followActionLoading := true)
    case FollowSucceeded =>
      s.(profileData := s.profileData.(isFollowing := true,
           counts := s.profileData.counts.(followerCount := s.profileData.counts.followerCount + 1)),
         followActionLoading := false)
    case UnfollowSucceeded =>
      s.(profileData := s.profileData.(isFollowing := false,
           counts := s.profileData.counts.(followerCount := s.profileData.counts.followerCount - 1)),
         followActionLoading := false)
  }

  /** The number of times `u` occurs in `updates`. */
  function Count(updates: seq<Update>, u: Update): nat
    decreases |updates|
  {
    if updates == [] then 0
    else (if updates[0] == u then 1 else 0) + Count(updates[1..], u)
  }

  /** The updaters, written as the draft mutations they perform. */
  method Apply(draft: State, update: Update) returns (next: State)
    ensures next == Next(draft, update)
  {
    next := draft;
    match update {
      case ProfileLoaded(data) =>
        next := next.(profileData := data);
      case StartFollowing =>
        next := next.(startFollowingRequestCount := next.startFollowingRequestCount + 1);
      case StopFollowing =>
        next := next.(stopFollowingRequestCount := next.stopFollowingRequestCount + 1);
      case FollowActionStarted =>
        next := next.(followActionLoading := true);
      case FollowSucceeded =>
        var data := next.profileData;
        data := data.(isFollowing := true);
        data := data.(counts := data.counts.(followerCount := data.counts.followerCount + 1));
        next := next.(profileData := data);
        next := next.(followActionLoading := false);
      case UnfollowSucceeded =>
        var data := next.profileData;
        data := data.(isFollowing := false);
        data := data.(counts := data.counts.(followerCount := data.counts.followerCount - 1));
        next := next.(profileData := data);
        next := next.(followActionLoading := false);
    }
  }

  /** The state after applying `updates` in order. */
  function Run(s: State, updates: seq<Update>): State
    decreases |updates|
  {
    if updates == [] then s else Run(Next(s, updates[0]), updates[1..])
  }

  // ---------------------------------------------------------------------
  // Effects: the follow and stop-following requests

  datatype Outcome = Succeeded | Failed

  /** A follow or stop-following request: its path and the viewer's token. */
  datatype Request = AddFollow(path: string, token: Option<string>) | RemoveFollow(path: string, token: Option<string>)

  /** The profile fetch (POST /profile/<username>) resolves: the response
      replaces the profile data wholesale; a failure is only logged. */
  method OnProfileResponse(s: State, response: Option<ProfileData>) returns (t: State)
    ensures response.Some? ==> t == s.(profileData := response.value)
    ensures response.None? ==> t == s
  {
    t := s;
    if response.Some? {
      t := Apply(s, ProfileLoaded(response.value));
    }
  }

  /** The follow effect's dependency list is `[startFollowingRequestCount]`
      and its body tests the counter for truthiness. */
  predicate FollowFires(before: State, after: State) {
    after.startFollowingRequestCount != before.startFollowingRequestCount && after.startFollowingRequestCount != 0
  }

  /** The same for the stop-following effect and its counter. */
  predicate StopFollowingFires(before: State, after: State) {
    after.stopFollowingRequestCount != before.stopFollowingRequestCount && after.stopFollowingRequestCount != 0
  }

  /** The effect keyed on `startFollowingRequestCount`: when the counter
      changed to a non-zero value it marks the page loading and posts to
      /addFollow/<profile username>. */
  method RunFollowEffect(before: State, after: State, app: Session.State) returns (t: State, request: Option<Request>)
    ensures request.Some? <==> FollowFires(before, after)
    ensures request.Some? ==> t == after.(followActionLoading := true)
    ensures request.Some? ==> request.value == AddFollow("/addFollow/" + after.profileData.profileUsername, app.user.token)
    ensures request.None? ==> t == after
  {
    t, request := after, None;
    if after.startFollowingRequestCount != before.startFollowingRequestCount && after.startFollowingRequestCount != 0 {
      t := Apply(after, FollowActionStarted);
      request := Some(AddFollow("/addFollow/" + after.profileData.profileUsername, app.user.token));
    }
  }

  /** The effect keyed on `stopFollowingRequestCount`, posting to
      /removeFollow/<profile username>. */
  method RunStopFollowingEffect(before: State, after: State, app: Session.State) returns (t: State, request: Option<Request>)
    ensures request.Some? <==> StopFollowingFires(before, after)
    ensures request.Some? ==> t == after.(followActionLoading := true)
    ensures request.Some? ==> request.value == RemoveFollow("/removeFollow/" + after.profileData.profileUsername, app.user.token)
    ensures request.None? ==> t == after
  {
    t, request := after, None;
    if after.stopFollowingRequestCount != before.stopFollowingRequestCount && after.stopFollowingRequestCount != 0 {
      t := Apply(after, FollowActionStarted);
      request := Some(RemoveFollow("/removeFollow/" + after.profileData.profileUsername, app.user.token));
    }
  }

  /** A follow request resolves: success applies its updater; a failure is
      only logged, so the state, loading flag included, stays as it was. */
  method OnFollowResponse(s: State, outcome: Outcome) returns (t: State)
    ensures outcome.Succeeded? ==> t.profileData.isFollowing && !t.followActionLoading
    ensures outcome.Succeeded? ==> t.profileData.counts.followerCount == s.profileData.counts.followerCount + 1
    ensures outcome.Succeeded? ==> t == Next(s, FollowSucceeded)
    ensures outcome.Failed? ==> t == s
  {
    t := s;
    if outcome.Succeeded? {
      t := Apply(s, FollowSucceeded);
    }
  }

  method OnStopFollowingResponse(s: State, outcome: Outcome) returns (t: State)
    ensures outcome.Succeeded? ==> !t.profileData.isFollowing && !t.followActionLoading
    ensures outcome.Succeeded? ==> t.profileData.counts.followerCount == s.profileData.counts.followerCount - 1
    ensures outcome.Succeeded? ==> t == Next(s, UnfollowSucceeded)
    ensures outcome.Failed? ==> t == s
  {
    t := s;
    if outcome.Succeeded? {
      t := Apply(s, UnfollowSucceeded);
    }
  }

  // ---------------------------------------------------------------------
  // Which button the page shows

  /** The Stop Following button: a logged-in viewer who follows the profile,
      on someone else's profile, once it has loaded. The viewer's username
      may be `null`, which differs from every profile username. */
  predicate ShowStopFollowing(app: Session.State, p: ProfileData): (show: bool)
    ensures show ==> app.loggedIn && p.isFollowing
    ensures show ==> p.profileUsername != Placeholder && app.user.username != Some(p.profileUsername)
    ensures app.loggedIn && p.isFollowing && p.profileUsername != Placeholder && app.user.username.None? ==> show
  {
    app.loggedIn && p.isFollowing && app.user.username != Some(p.profileUsername) && p.profileUsername != Placeholder
  }

  /** The Follow button: the same guard for a viewer not yet following. */
  predicate ShowFollow(app: Session.State, p: ProfileData): (show: bool)
    ensures show <==> !p.isFollowing && ShowStopFollowing(app, p.(isFollowing := true))
  {
    app.loggedIn && !p.isFollowing && app.user.username != Some(p.profileUsername) && p.profileUsername != Placeholder
  }

  /** A button can be clicked when it is shown and not disabled: both are
      `disabled` while `followActionLoading` is set. */
  predicate FollowClickable(app: Session.State, s: State) {
    ShowFollow(app, s.profileData) && !s.followActionLoading
  }

  predicate StopFollowingClickable(app: Session.State, s: State) {
    ShowStopFollowing(app, s.profileData) && !s.followActionLoading
  }

  // ---------------------------------------------------------------------
  // Properties

  lemma StartStopBumpOwnCounter(s: State)
    ensures Next(s, StartFollowing) == s.(startFollowingRequestCount := s.startFollowingRequestCount + 1)
    ensures Next(s, StopFollowing) == s.(stopFollowingRequestCount := s.stopFollowingRequestCount + 1)
  {
  }

  /** Loading the profile replaces the profile data and nothing else. */
  lemma ProfileLoadedReplacesData(s: State, data: ProfileData)
    ensures Next(s, ProfileLoaded(data)).profileData == data
    ensures Next(s, ProfileLoaded(data)).followActionLoading == s.followActionLoading
    ensures Next(s, ProfileLoaded(data)).startFollowingRequestCount == s.startFollowingRequestCount
    ensures Next(s, ProfileLoaded(data)).stopFollowingRequestCount == s.stopFollowingRequestCount
  {
  }

  /** A successful follow followed by a successful stop-following restores
      the follower count, the following flag, and clears loading. */
  lemma FollowThenUnfollowRestores(s: State)
    ensures var t := Next(Next(s, FollowSucceeded), UnfollowSucceeded);
      && t.profileData.counts == s.profileData.counts
      && !t.profileData.isFollowing && !t.followActionLoading
      && t.profileData.profileUsername == s.profileData.profileUsername
  {
  }

  /** Neither button is shown before the profile loads, and never both. */
  lemma ButtonsExclusive(app: Session.State, p: ProfileData)
    ensures !(ShowFollow(app, p) && ShowStopFollowing(app, p))
    ensures !ShowFollow(app, InitialState().profileData)
    ensures !ShowStopFollowing(app, InitialState().profileData)
    ensures !app.loggedIn || app.user.username == Some(p.profileUsername) ==>
      !ShowFollow(app, p) && !ShowStopFollowing(app, p)
  {
  }

  /** A successful follow turns the Follow button into Stop Following, and a
      successful stop-following turns it back. */
  lemma SuccessSwapsButton(app: Session.State, s: State)
    ensures ShowFollow(app, s.profileData) ==> ShowStopFollowing(app, Next(s, FollowSucceeded).profileData)
    ensures ShowStopFollowing(app, s.profileData) ==> ShowFollow(app, Next(s, UnfollowSucceeded).profileData)
  {
  }

  /** Over any sequence of updates both request counters never decrease,
      and each grows by exactly one per click on its button. */
  lemma {:induction false} CountersNeverDecrease(s: State, updates: seq<Update>)
    ensures s.startFollowingRequestCount <= Run(s, updates).startFollowingRequestCount
    ensures s.stopFollowingRequestCount <= Run(s, updates).stopFollowingRequestCount
    ensures Run(s, updates).startFollowingRequestCount == s.startFollowingRequestCount + Count(updates, StartFollowing)
    ensures Run(s, updates).stopFollowingRequestCount == s.stopFollowingRequestCount + Count(updates, StopFollowing)
    ensures Run(s, updates).startFollowingRequestCount - s.startFollowingRequestCount
      + Run(s, updates).stopFollowingRequestCount - s.stopFollowingRequestCount <= |updates|
    decreases |updates|
  {
    if updates != [] {
      CountersNeverDecrease(Next(s, updates[0]), updates[1..]);
    }
  }

  /** One follow request at a time: a click on an enabled Follow button
      fires the follow effect, whose loading flag disables both buttons
      until the request succeeds; a failure leaves the state as it is
      (`OnFollowResponse`), so both stay disabled. After a success only Stop
      Following is shown, and it is enabled. */
  lemma FollowClickIssuesOneRequest(app: Session.State, s: State)
    requires FollowClickable(app, s)
    ensures var clicked := Next(s, StartFollowing);
      var started := Next(clicked, FollowActionStarted);
      && FollowFires(s, clicked)
      && !FollowClickable(app, started) && !StopFollowingClickable(app, started)
      && !ShowFollow(app, Next(started, FollowSucceeded).profileData)
      && StopFollowingClickable(app, Next(started, FollowSucceeded))
  {
  }

  /** The same for the Stop Following button and its effect. */
  lemma StopFollowingClickIssuesOneRequest(app: Session.State, s: State)
    requires StopFollowingClickable(app, s)
    ensures var clicked := Next(s, StopFollowing);
      var started := Next(clicked, FollowActionStarted);
      && StopFollowingFires(s, clicked)
      && !FollowClickable(app, started) && !StopFollowingClickable(app, started)
      && !ShowStopFollowing(app, Next(started, UnfollowSucceeded).profileData)
      && FollowClickable(app, Next(started, UnfollowSucceeded))
  {
  }
}

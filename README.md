# Client state machines of a social-posting web client

This project models the browser-side state logic of a small social-posting
application: the registration form, the post editor, the profile page with
follow and stop-following, the single-post page, and the application-wide
session with its flash messages and its copy in local storage. Each page keeps
a small record of fields and changes it through a reducer or through state
updaters. Network requests and timers are outside the model. Their outcomes
arrive as further actions: a delayed check, a uniqueness answer, a completed
fetch, or a successful or failed follow.

Modules, one per source file:

- `Js` holds the JavaScript string behaviour the pages rely on. It has the
  ECMA-262 whitespace set, `String.prototype.trim`, the two regular-expression
  tests, truthiness, and the conversion of `null` to the text "null".
- `Session` models `app/Main.js`. It covers the start-up state read from
  storage, the `login`/`logout`/`flashMessage` reducer, and the effect that
  writes or removes the three storage keys at start-up and whenever
  `loggedIn` changes. Local storage is a class holding a
  string-to-string map.
- `HomeGuest` models the registration form's reducer (nine actions). It also
  models the debounce effects, which schedule a delayed check, and the
  uniqueness effects, which are keyed on `checkCount`.
- `EditPost` models the post editor's reducer (eight actions) and
  `handleSubmit`. It also models the fetch, and the save keyed on `sendCount`.
- `Profile` models the profile page's state updaters, the follow and
  stop-following effects, and the two button guards.
- `ViewSinglePost` models the view choice, `checkIfIsOwner`, `handleDelete`,
  and the edit and profile links.

Each reducer has two definitions. `Next` is a declarative function that says
what each action means. `Reduce` (or `Apply`) is a method that performs the
source's draft mutations statement by statement, with later writes overwriting
earlier ones. `Reduce` is proved equal to `Next`, and the properties are
lemmas about `Next`. `Run` folds `Next` over a sequence of actions; the
monotonicity lemmas are stated over it.

Assumptions: a string is a `seq<char>` and each `char` stands for one UTF-16
code unit, so `.length` is `|s|`. Counters are unbounded integers.

## Model

| member | source | states |
|---|---|---|
| `Js.Trim` | app/components/EditPost.js:57 | `trim` returns the slice of `v` left after removing only whitespace before and after it; the result neither starts nor ends with whitespace, and a whitespace-free string comes back unchanged |
| `Js.TrimEmptyIffBlank` | app/components/EditPost.js:56-67 | `!v.trim()` holds exactly when `v` is empty or consists only of whitespace |
| `Js.MatchesEmailIsPattern` | app/components/HomeGuest.js:76 | the email test (no whitespace, an '@' neither first nor last) holds exactly when the string splits as `\S+`, '@', `\S+` |
| `Session.InitialState` | app/Main.js:24-33 | the start-up state is logged in iff the token key holds a non-empty string; each user field is the stored string of its key, or `null` when the key is missing; there are no flash messages |
| `Session.Reduce` | app/Main.js:37-52 | the draft mutations of `ourReducer` yield the transition `Next`: login sets the flag and the user, logout clears the flag, flashMessage appends |
| `Session.LoginSetsUser` | app/Main.js:39-44 | `login(u)` sets `loggedIn` and `user = u` and leaves the flash messages unchanged |
| `Session.LogoutOnlyClearsFlag` | app/Main.js:45-47 | `logout` changes only `loggedIn` to false; applying it twice equals applying it once |
| `Session.FlashMessageAppends` | app/Main.js:48-50 | `flashMessage(m)` adds one entry `m` at the end and keeps earlier entries in order |
| `Session.FlashMessagesAppendOnly` | app/Main.js:48-50 | over any action sequence the earlier list is a prefix of the later one, which is longer by the number of flashMessage actions |
| `Session.Synced` | app/Main.js:56-66 | when logged in, the token, username and avatar keys hold the user's fields as text (`null` as "null"); otherwise all three keys are removed; every other key is unchanged |
| `Session.SyncStorage` | app/Main.js:57-65 | the effect body's three sequential `setItem` or `removeItem` calls leave storage equal to `Synced` of the old storage |
| `Session.Mount` | app/Main.js:24-66 | start-up reads the state through `getItem` and runs the effect once for it |
| `Session.OnStateChange` | app/Main.js:56-66 | after a dispatch the effect runs, and storage changes, only when `loggedIn` changed (dependency list `[state.loggedIn]`) |
| `Session.MountEstablishesMirror` | app/Main.js:24-66 | after the start-up run of the effect, storage holds all three keys if logged in and none of them otherwise |
| `Session.StorageMirrorsLoggedIn` | app/Main.js:37-66 | over any action sequence, with the effect run only when `loggedIn` changes, storage keeps holding all three keys exactly while logged in |
| `Session.ReloadNeverLogsIn` | app/Main.js:24-33 | when storage mirrors the flag, a reload is logged in only if the session was, and a logged-out session reloads with a `null` user |
| `Session.LoginSurvivesReload` | app/Main.js:24-66 | a login from a logged-out state, with a user of three strings and a non-empty token, is rebuilt exactly by a reload; a login while already logged in leaves storage untouched |
| `Session.NullFieldStoredAsText` | app/Main.js:56-61 | a `null` username logged in from a logged-out state is stored and read back as the text "null" |
| `Session.EmptyTokenLoggedOutAfterReload` | app/Main.js:25 | a login with an empty token from a logged-out state is logged out after a reload, since "" is falsy |
| `Session.LogoutSurvivesReload` | app/Main.js:24-66 | logging out of a logged-in session and reloading gives a logged-out state with a `null` user; a logout while logged out leaves storage untouched |
| `Session.StartupSyncIsFixpoint` | app/Main.js:24-66 | the sync at start-up rewrites the values it read, so storage holding the three keys and a non-empty token is unchanged |
| `HomeGuest.Reduce` | app/components/HomeGuest.js:31-110 | the reducer's sequential draft writes yield the transition `Next` for all nine actions, including message precedence |
| `HomeGuest.UsernameKeystrokeRule` | app/components/HomeGuest.js:33-48 | the value is stored; there is an error iff length > 30, or the value is non-empty and not `[a-zA-Z0-9]+`; the character-set message wins; `isUnique` and `checkCount` are kept |
| `HomeGuest.UsernameDelayRule` | app/components/HomeGuest.js:49-61 | length < 3 sets the minimum-length error; `checkCount` grows by exactly 1 iff the field is error-free afterwards and is unchanged otherwise |
| `HomeGuest.InvalidUsernameNeverChecked` | app/components/HomeGuest.js:33-165 | a username failing a keystroke rule, once the delayed check has run, has the same `checkCount` and issues no uniqueness request |
| `HomeGuest.ValidUsernameCheckedOnce` | app/components/HomeGuest.js:33-165 | a username passing both phases is sent for exactly one uniqueness check, carrying that value |
| `HomeGuest.TwoCharacterUsername` | app/components/HomeGuest.js:33-61 | "ab" passes the keystroke phase, then gets the minimum-length error and no increment |
| `HomeGuest.UniqueResultsRule` | app/components/HomeGuest.js:62-92 | a "taken" answer sets the error, clears `isUnique` and sets the taken message; otherwise only `isUnique` is set; the same holds for email |
| `HomeGuest.EmailRules` | app/components/HomeGuest.js:71-83 | a keystroke stores the email and clears its error; the delayed check flags the value iff it fails `^\S+@\S+$`, and adds 1 to `checkCount` iff no error remains |
| `HomeGuest.PasswordRules` | app/components/HomeGuest.js:93-106 | a keystroke gives an error iff length > 50; the delayed check only ever sets an error, when length < 12 |
| `HomeGuest.ActionsTouchOwnField` | app/components/HomeGuest.js:31-110 | each action changes only its own field; `submitCount` never changes; `submitForm` changes nothing |
| `HomeGuest.CheckCountStep` | app/components/HomeGuest.js:49-83 | one action grows each `checkCount` by 0 or 1 |
| `HomeGuest.CheckCountsNeverDecrease` | app/components/HomeGuest.js:31-110 | over any action sequence the check counters never decrease; each grows by at most the number of its delayed checks |
| `HomeGuest.DelayedCheckNeedsValue` | app/components/HomeGuest.js:114-123 | a keystroke schedules the delayed username check iff the new value is non-empty and differs from the old one |
| `HomeGuest.UniquenessNeedsCount` | app/components/HomeGuest.js:147-185 | a uniqueness request is issued only for a non-zero `checkCount`; the mount run from the initial state issues none |
| `HomeGuest.IsUniqueSurvivesKeystroke` | app/components/HomeGuest.js:33-74 | a keystroke keeps the previous `isUnique` verdict |
| `HomeGuest.InitialState` | app/components/HomeGuest.js:8-29 | the form starts with empty, error-free fields, no uniqueness verdict and zero counters; the mount run of its effects schedules no delayed check and issues no request |
| `HomeGuest.ScheduledChecks` | app/components/HomeGuest.js:114-145 | each field's delayed check is scheduled iff its value changed and is non-empty; nothing else is scheduled |
| `HomeGuest.UniquenessRequests` | app/components/HomeGuest.js:147-185 | each uniqueness request is issued iff its counter changed to a non-zero value, and carries the field's current value |
| `HomeGuest.MountChecks` | app/components/HomeGuest.js:114-145 | at mount, each debounce effect schedules its delayed check iff its field's value is non-empty, whatever changed |
| `HomeGuest.MountRequests` | app/components/HomeGuest.js:147-185 | at mount, each uniqueness effect issues its request iff its counter is non-zero, carrying the field's value |
| `HomeGuest.MountIsChangeFromInitial` | app/components/HomeGuest.js:8-185 | the mount run of every effect equals the run for a change from the initial state to the current one |
| `EditPost.InitialState` | app/components/EditPost.js:14-29 | the editor starts fetching and not saving, with `sendCount = 0` and both fields empty and error-free |
| `EditPost.Reduce` | app/components/EditPost.js:32-69 | the reducer's draft writes yield the transition `Next` for all eight actions; the blank test is `!value.trim()` |
| `EditPost.HandleSubmit` | app/components/EditPost.js:73-80 | a blank field gains its error, no error is cleared, and `sendCount` grows by 1 iff neither field has an error afterwards |
| `EditPost.OnFetchResponse` | app/components/EditPost.js:83-98 | a fetched post completes the fetch; a failed fetch leaves the state, and so the loading placeholder, unchanged |
| `EditPost.RunSaveEffect` | app/components/EditPost.js:116-134 | a save starts iff `sendCount` changed to a non-zero value; it sets `isSaving`, which disables the Save button, and posts the current title and body to `/post/<id>/edit` |
| `EditPost.OnSaveResponse` | app/components/EditPost.js:135-139 | success clears `isSaving` and flashes "Post updated!"; a failure changes nothing, so `isSaving` stays true |
| `EditPost.FetchCompletedCopiesPost` | app/components/EditPost.js:34-38 | `fetchCompleted` copies title and body and clears `isFetching`; error flags, `sendCount` and `isSaving` are untouched |
| `EditPost.ChangeClearsOnlyItsField` | app/components/EditPost.js:39-46 | `titleChanged`/`bodyChanged` set that field's value and clear only that field's error |
| `EditPost.RuleViolationFlagsBlank` | app/components/EditPost.js:56-67 | a rule check sets the field's error and message iff the value is blank, otherwise changes nothing, and never clears an error |
| `EditPost.RequestSubmittedGate` | app/components/EditPost.js:47-49 | `requestSubmitted` adds 1 to `sendCount` iff neither field has an error, and otherwise changes nothing |
| `EditPost.SaveFlagsOnly` | app/components/EditPost.js:50-55 | `saveRequestStarted`/`saveRequestFinished` only set `isSaving` to true/false |
| `EditPost.SendCountNeverDecreases` | app/components/EditPost.js:32-69 | over any action sequence `sendCount` never decreases and grows by at most one per action |
| `EditPost.SaveBlocksSubmitUntilFinished` | app/components/EditPost.js:50-55 | once `isSaving` is set, the Save button stays disabled over any sequence of actions without `saveRequestFinished`, so a failed save keeps it disabled |
| `EditPost.BlankTitleBlocksSubmit` | app/components/EditPost.js:73-80 | submitting with an empty or whitespace-only title flags the title and leaves `sendCount` unchanged |
| `EditPost.ConsistentPreserved` | app/components/EditPost.js:32-80 | "an error is shown only on a blank value" holds initially and is kept by every action the page dispatches |
| `EditPost.SubmitSendsIffFilled` | app/components/EditPost.js:73-80 | in a consistent form, a submit moves `sendCount` iff both title and body contain non-whitespace |
| `Profile.Apply` | app/components/Profile.js:39-122 | the updaters' draft writes yield the transition `Next` |
| `Profile.OnProfileResponse` | app/components/Profile.js:26-45 | a profile response replaces `profileData` wholesale; a failure changes nothing |
| `Profile.RunFollowEffect` | app/components/Profile.js:60-93 | a follow request is issued iff the start counter changed to a non-zero value; it sets `followActionLoading` and posts to `/addFollow/<username>` |
| `Profile.RunStopFollowingEffect` | app/components/Profile.js:101-134 | the same as `RunFollowEffect`, for the stop counter and `/removeFollow/<username>` |
| `Profile.OnFollowResponse` | app/components/Profile.js:77-84 | success sets `isFollowing`, adds 1 to `followerCount` and clears loading; a failure changes nothing |
| `Profile.OnStopFollowingResponse` | app/components/Profile.js:118-125 | success clears `isFollowing`, subtracts 1 and clears loading; a failure changes nothing |
| `Profile.StartStopBumpOwnCounter` | app/components/Profile.js:54-99 | `startFollowing`/`stopFollowing` each add exactly 1 to their own counter and change nothing else |
| `Profile.ProfileLoadedReplacesData` | app/components/Profile.js:39-41 | loading the profile replaces `profileData`; the counters and the loading flag are untouched |
| `Profile.FollowThenUnfollowRestores` | app/components/Profile.js:77-122 | a successful follow, then a successful unfollow, restores the counts and leaves the viewer not following and not loading |
| `Profile.ButtonsExclusive` | app/components/Profile.js:141-165 | the two buttons never show together, neither shows before the profile loads, and neither shows to a guest or on the viewer's own profile |
| `Profile.SuccessSwapsButton` | app/components/Profile.js:77-165 | a successful follow turns Follow into Stop Following, and a successful unfollow turns it back |
| `Profile.CountersNeverDecrease` | app/components/Profile.js:54-99 | over any update sequence each request counter grows by exactly the number of clicks on its button, so neither decreases |
| `Profile.InitialState` | app/components/Profile.js:14-24 | the page starts not loading, with zero counters and the placeholder profile, for which no viewer sees either button |
| `Profile.ShowStopFollowing` | app/components/Profile.js:154-165 | the Stop Following button shows only to a logged-in viewer who follows a loaded profile other than their own; a viewer with a `null` username is never the profile's owner |
| `Profile.ShowFollow` | app/components/Profile.js:141-153 | the Follow button has the same guard as Stop Following, for a viewer not yet following |
| `Profile.FollowClickIssuesOneRequest` | app/components/Profile.js:54-153 | a click on the enabled Follow button fires the follow effect; the loading flag then disables both buttons until a success, which shows only an enabled Stop Following |
| `Profile.StopFollowingClickIssuesOneRequest` | app/components/Profile.js:95-165 | the same for Stop Following: its click fires one request, both buttons are disabled until a success, which shows only an enabled Follow |
| `ViewSinglePost.ChooseView` | app/components/ViewSinglePost.js:49-59 | the loading view shows iff loading; not-found shows iff loaded without a post; otherwise the fetched post shows |
| `ViewSinglePost.OnFetchResponse` | app/components/ViewSinglePost.js:23-33 | a response sets the post and ends loading; a failed fetch leaves the page loading |
| `ViewSinglePost.InitialState` | app/components/ViewSinglePost.js:14-15 | the page starts in the loading view with no post |
| `ViewSinglePost.CheckIfIsOwner` | app/components/ViewSinglePost.js:67-73 | false when logged out; otherwise true iff the viewer's username equals the author's |
| `ViewSinglePost.EditLink` | app/components/ViewSinglePost.js:105 | the edit link is `/post/`, then the post id, then `/edit` |
| `ViewSinglePost.ProfileLink` | app/components/ViewSinglePost.js:127-131 | a profile link is `/profile/` followed by the username ("null" for a null username) |
| `ViewSinglePost.HandleDelete` | app/components/ViewSinglePost.js:75-97 | declining sends nothing and changes nothing; a confirmed delete goes to `/post/<route id>`; only a response exactly "Success" flashes the deletion message and navigates to the viewer's profile |
| `ViewSinglePost.LoadingUntilFetched` | app/components/ViewSinglePost.js:14-59 | the page starts in the loading view; once loaded, a falsy post shows not-found and a post shows itself |
| `ViewSinglePost.OwnerControlsOnlyForAuthor` | app/components/ViewSinglePost.js:102-123 | edit and delete controls show only on a loaded post, and only to the logged-in author |
| `ViewSinglePost.LinksAreInjective` | app/components/ViewSinglePost.js:105-131 | different post ids give different edit links, and different authors give different profile links |

## Left out

- Network requests (Axios calls, cancel tokens, `async`/`await`) are left out. A request's outcome enters the model as a success or failure input. The `console.log(e.response.data)` in each catch block is not modelled.
- Debounce timers (`setTimeout`/`clearTimeout`, 750 ms) and effect clean-up are left out. A delayed check is the action `UsernameAfterDelay`, `EmailAfterDelay` or `PasswordAfterDelay`. `ScheduledChecks` says when one is scheduled, but the cancellation of a pending timer is not modelled.
- The ordering of effects is left out: which render an effect observes, and interleaving with unmounting. An effect is modelled on the state before and after a change. It runs when one of its dependencies changed, and its body then tests the state. The mount-time run of app/Main.js's storage effect is `Session.Mount`.
- EditPost.OnFetchResponse: a falsy answer from `GET /post/<id>` (no such post) is not modelled. For that answer the source reads `title` and `body` off `null` or `false`, which throws or stores `undefined`, and the editor has no not-found view. The model takes only a fetched post or a failed request.
- Requests cancelled on unmount, and the cancellation of an earlier request when a counter moves again, are not modelled. The disabled buttons (`Profile.FollowClickable`, `EditPost.SubmitEnabled`) normally prevent a second click while a request is in flight.
- React rendering (JSX, transitions, tooltips, markdown) is left out. Only the conditions that decide what is shown are modelled.
- The route tables in app/Main.js and app/components/Profile.js are left out: matching paths is the router library's behaviour.
- Date formatting in app/components/ViewSinglePost.js is left out. It depends on JavaScript `Date` and the local time zone.
- `window.confirm` and `history.push` are left out. The confirmation is an input of `HandleDelete` and the navigation target is an output.
- The browser's `localStorage` is a map from string to string. Quotas and storage events are not modelled.
- The profile counts start as `""` in the source and are modelled as 0. JavaScript's `++` and `--` turn `""` into 1 and -1, exactly as from 0. Only how `""` is displayed differs.
- `Js.IsWs` is the ECMA-262 WhiteSpace and LineTerminator set for the current Unicode Space_Separator category. Characters outside the Basic Multilingual Plane are not modelled as surrogate pairs.
- `HomeGuest.State.submitCount` exists in the source but no action changes it. The form's `handleSubmit` only prevents the default submission, so it is not modelled beyond `SubmitForm`, which changes nothing.
- The application-wide reducer of app/Main.js handles only `login`, `logout` and `flashMessage`, and so does the model.
- The storage keys are the ones in the code: `socialMediaAppToken`, `socialMediaAppUsername` and `socialMediaAppAvatar`.

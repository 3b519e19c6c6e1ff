// The application-wide state of app/Main.js: who is logged in, the flash
// messages, and the copy of the session kept in the browser's local storage.
module Session {
  import opened Js

  const TokenKey := "socialMediaAppToken"
  const UsernameKey := "socialMediaAppUsername"
  const AvatarKey := "socialMediaAppAvatar"

  /** The three storage keys that mirror the session. */
  const SessionKeys: set<string> := {TokenKey, UsernameKey, AvatarKey}

  /** The logged-in user. Each field is a string or `null`: the state rebuilt
      from storage holds `null` for a key that is absent. */
  datatype User = User(token: Option<string>, username: Option<string>, avatar: Option<string>)

  datatype State = State(loggedIn: bool, flashMessages: seq<string>, user: User)

  datatype Action =
    | Login(data: User)
    | Logout
    | FlashMessage(value: string)

  /** What `localStorage.getItem` returns for `key`: the stored string, or
      `null` for a missing key. */
  function StoredValue(items: map<string, string>, key: string): Option<string> {
    if key in items then Some(items[key]) else None
  }

  /** The state the application starts from, read from storage: logged in
      exactly when the token key holds a non-empty string, the user's three
      fields read from their keys (`null` where a key is missing), and no
      flash messages. */
  function InitialState(items: map<string, string>): (s: State)
    ensures s.loggedIn <==> TokenKey in items && items[TokenKey] != ""
    ensures s.user.token.Some? <==> TokenKey in items
    ensures s.user.username.Some? <==> UsernameKey in items
    ensures s.user.avatar.Some? <==> AvatarKey in items
    ensures s.user.token.Some? ==> s.user.token.value == items[TokenKey]
    ensures s.user.username.Some? ==> s.user.username.value == items[UsernameKey]
    ensures s.user.avatar.Some? ==> s.user.avatar.value == items[AvatarKey]
    ensures s.flashMessages == []
  {
    State(
      loggedIn := TruthyOrNull(StoredValue(items, TokenKey)),
      flashMessages := [],
      user := User(StoredValue(items, TokenKey), StoredValue(items, UsernameKey), StoredValue(items, AvatarKey)))
  }

  /** What each action of the global reducer means. */
  function Next(s: State, a: Action): State {
    match a
    case Login(u) => s.(loggedIn := true, user := u)
    case Logout => s.(loggedIn := false)
    case FlashMessage(m) => s.(flashMessages := s.flashMessages + [m])
  }

  /** `ourReducer`, written as the draft mutations it performs. */
  method Reduce(draft: State, action: Action) returns (next: State)
    ensures next == Next(draft, action)
  {
    next := draft;
    match action {
      case Login(data) =>
        next := next.(loggedIn := true);
        next := next.(user := data);
      case Logout =>
        next := next.(loggedIn := false);
      case FlashMessage(value) =>
        var messages := next.flashMessages;
        messages := messages + [value];   // push
        next := next.(flashMessages := messages);
    }
  }

  /** The state after dispatching `actions` in order. */
  function Run(s: State, actions: seq<Action>): State
    decreases |actions|
  {
    if actions == [] then s else Run(Next(s, actions[0]), actions[1..])
  }

  lemma LoginSetsUser(s: State, u: User)
    ensures Next(s, Login(u)).loggedIn && Next(s, Login(u)).user == u
    ensures Next(s, Login(u)).flashMessages == s.flashMessages
  {
  }

  lemma LogoutOnlyClearsFlag(s: State)
    ensures Next(s, Logout) == State(false, s.flashMessages, s.user)
    ensures Next(Next(s, Logout), Logout) == Next(s, Logout)
  {
  }

  lemma FlashMessageAppends(s: State, m: string)
    ensures |Next(s, FlashMessage(m)).flashMessages| == |s.flashMessages| + 1
    ensures Next(s, FlashMessage(m)).flashMessages[..|s.flashMessages|] == s.flashMessages
    ensures Next(s, FlashMessage(m)).flashMessages[|s.flashMessages|] == m
  {
  }

  /** Flash messages are only ever appended: across any sequence of actions
      the earlier list is a prefix of the later one, and each FlashMessage
      action adds exactly one entry (no deduplication, no cap). */
  lemma {:induction false} FlashMessagesAppendOnly(s: State, actions: seq<Action>)
    ensures s.flashMessages <= Run(s, actions).flashMessages
    ensures |Run(s, actions).flashMessages| == |s.flashMessages| + CountFlash(actions)
    decreases |actions|
  {
    if actions != [] {
      FlashMessagesAppendOnly(Next(s, actions[0]), actions[1..]);
    }
  }

  /** The number of FlashMessage actions in `actions`. */
  function CountFlash(actions: seq<Action>): nat
    decreases |actions|
  {
    if actions == [] then 0
    else (if actions[0].FlashMessage? then 1 else 0) + CountFlash(actions[1..])
  }

  /** The browser's `localStorage`: a mutable map from string keys to string values. */
  class LocalStorage {
    var items: map<string, string>

    constructor (initial: map<string, string>)
      ensures items == initial
    {
      items := initial;
    }

    /** `getItem`: the stored string, or `null` for a missing key. */
    function GetItem(key: string): (v: Option<string>)
      reads this
      ensures v == StoredValue(items, key)
    {
      if key in items then Some(items[key]) else None
    }

    /** `setItem` converts its value to a string, so `null` is stored as "null". */
    method SetItem(key: string, value: Option<string>)
      modifies this
      ensures items == old(items)[key := ToJsString(value)]
    {
      items := items[key := ToJsString(value)];
    }

    method RemoveItem(key: string)
      modifies this
      ensures items == old(items) - {key}
    {
      items := items - {key};
    }
  }

  /** The storage contents after the session-sync effect has run for `s`:
      the three keys written from the user when logged in, all three removed
      otherwise; every other key as it was. */
  function Synced(items: map<string, string>, s: State): (r: map<string, string>)
    ensures forall k :: k !in SessionKeys ==> (k in r <==> k in items)
    ensures forall k :: k !in SessionKeys && k in items ==> r[k] == items[k]
    ensures s.loggedIn ==> SessionKeys <= r.Keys
    ensures s.loggedIn ==> r[TokenKey] == ToJsString(s.user.token)
    ensures s.loggedIn ==> r[UsernameKey] == ToJsString(s.user.username)
    ensures s.loggedIn ==> r[AvatarKey] == ToJsString(s.user.avatar)
    ensures !s.loggedIn ==> r.Keys !! SessionKeys
  {
    if s.loggedIn then
      items[TokenKey := ToJsString(s.user.token)]
           [UsernameKey := ToJsString(s.user.username)]
           [AvatarKey := ToJsString(s.user.avatar)]
    else
      items - SessionKeys
  }

  /** The body of the storage effect: three writes when logged in, three
      removals otherwise. */
  method SyncStorage(storage: LocalStorage, s: State)
    modifies storage
    ensures storage.items == Synced(old(storage.items), s)
  {
    if s.loggedIn {
      storage.SetItem(TokenKey, s.user.token);
      storage.SetItem(UsernameKey, s.user.username);
      storage.SetItem(AvatarKey, s.user.avatar);
    } else {
      storage.RemoveItem(TokenKey);
      storage.RemoveItem(UsernameKey);
      storage.RemoveItem(AvatarKey);
    }
    assert storage.items == Synced(old(storage.items), s);
  }

  /** The effect's dependency list is `[state.loggedIn]`: after the first
      render it runs again only when a transition changed the flag. */
  predicate SyncRuns(before: State, after: State) {
    before.loggedIn != after.loggedIn
  }

  /** Storage after the effect has reacted to a transition from `before` to
      `after`. */
  function StorageAfter(items: map<string, string>, before: State, after: State): map<string, string> {
    if SyncRuns(before, after) then Synced(items, after) else items
  }

  /** Start-up: the initial state is read from storage through `getItem`, and
      the effect then runs once for it. */
  method Mount(storage: LocalStorage) returns (s: State)
    modifies storage
    ensures s == InitialState(old(storage.items))
    ensures storage.items == Synced(old(storage.items), s)
  {
    var token := storage.GetItem(TokenKey);
    var username := storage.GetItem(UsernameKey);
    var avatar := storage.GetItem(AvatarKey);
    s := State(TruthyOrNull(token), [], User(token, username, avatar));
    SyncStorage(storage, s);
  }

  /** A dispatch moved the state from `before` to `after`: the effect runs
      only if `loggedIn` changed. */
  method OnStateChange(storage: LocalStorage, before: State, after: State)
    modifies storage
    ensures storage.items == StorageAfter(old(storage.items), before, after)
  {
    if before.loggedIn != after.loggedIn {
      SyncStorage(storage, after);
    }
  }

  /** Storage after each action of `actions` has been dispatched and the
      effect has reacted to it. */
  function StorageAfterRun(items: map<string, string>, s: State, actions: seq<Action>): map<string, string>
    decreases |actions|
  {
    if actions == [] then items
    else StorageAfterRun(StorageAfter(items, s, Next(s, actions[0])), Next(s, actions[0]), actions[1..])
  }

  /** Storage agrees with the session flag: all three keys present while
      logged in, none of them while logged out. */
  predicate Mirrors(items: map<string, string>, s: State) {
    (s.loggedIn ==> SessionKeys <= items.Keys) && (!s.loggedIn ==> items.Keys !! SessionKeys)
  }

  /** The start-up run of the effect makes storage agree with the flag,
      whatever storage held. */
  lemma MountEstablishesMirror(items: map<string, string>)
    ensures Mirrors(Synced(items, InitialState(items)), InitialState(items))
  {
  }

  /** Once storage agrees with the flag it keeps agreeing over any sequence of
      actions, although the effect skips every action that leaves the flag
      as it was. */
  lemma {:induction false} StorageMirrorsLoggedIn(items: map<string, string>, s: State, actions: seq<Action>)
    requires Mirrors(items, s)
    ensures Mirrors(StorageAfterRun(items, s, actions), Run(s, actions))
    decreases |actions|
  {
    if actions != [] {
      var t := Next(s, actions[0]);
      assert Mirrors(StorageAfter(items, s, t), t);
      StorageMirrorsLoggedIn(StorageAfter(items, s, t), t, actions[1..]);
    }
  }

  /** With storage agreeing with the flag, a reload never logs a logged-out
      session back in, and rebuilds it with a `null` user. */
  lemma ReloadNeverLogsIn(items: map<string, string>, s: State)
    requires Mirrors(items, s)
    ensures InitialState(items).loggedIn ==> s.loggedIn
    ensures !s.loggedIn ==> InitialState(items) == State(false, [], User(None, None, None))
  {
    if !s.loggedIn {
      assert TokenKey !in items && UsernameKey !in items && AvatarKey !in items;
    }
  }

  /** A user that storage reproduces exactly: three strings and a non-empty token. */
  predicate Persistable(u: User) {
    u.token.Some? && u.username.Some? && u.avatar.Some? && Truthy(u.token.value)
  }

  /** Round trip: log in from a logged-out state, let the effect write
      storage, reload: the rebuilt state is logged in as the same user, with
      no flash messages. A login dispatched while already logged in leaves
      the flag unchanged, so the effect does not run and storage keeps the
      earlier user. */
  lemma LoginSurvivesReload(items: map<string, string>, s: State, u: User)
    requires Persistable(u)
    ensures !s.loggedIn ==> InitialState(StorageAfter(items, s, Next(s, Login(u)))) == State(true, [], u)
    ensures s.loggedIn ==> StorageAfter(items, s, Next(s, Login(u))) == items
  {
    if !s.loggedIn {
      var m := StorageAfter(items, s, Next(s, Login(u)));
      assert m[TokenKey] == u.token.value;
      assert m[UsernameKey] == u.username.value;
      assert m[AvatarKey] == u.avatar.value;
    }
  }

  /** A login whose user has a `null` field does not survive a reload as
      itself: `setItem` stores the text "null" in its place. */
  lemma NullFieldStoredAsText(items: map<string, string>, s: State, u: User)
    requires u.username.None?
    ensures !s.loggedIn ==> InitialState(StorageAfter(items, s, Next(s, Login(u)))).user.username == Some("null")
  {
    if !s.loggedIn {
      assert StorageAfter(items, s, Next(s, Login(u)))[UsernameKey] == "null";
    }
  }

  /** A login with an empty token is written to storage but is not logged in
      after a reload, since the empty string is falsy. */
  lemma EmptyTokenLoggedOutAfterReload(items: map<string, string>, s: State, u: User)
    requires u.token == Some("")
    ensures !s.loggedIn ==> !InitialState(StorageAfter(items, s, Next(s, Login(u)))).loggedIn
  {
    if !s.loggedIn {
      assert StorageAfter(items, s, Next(s, Login(u)))[TokenKey] == "";
    }
  }

  /** Logging out of a logged-in session and reloading starts logged out with
      no user, whatever storage held before; logging out while logged out
      does not touch storage. */
  lemma LogoutSurvivesReload(items: map<string, string>, s: State)
    ensures s.loggedIn ==> InitialState(StorageAfter(items, s, Next(s, Logout))) == State(false, [], User(None, None, None))
    ensures !s.loggedIn ==> StorageAfter(items, s, Next(s, Logout)) == items
  {
    if s.loggedIn {
      var m := StorageAfter(items, s, Next(s, Logout));
      assert TokenKey !in m && UsernameKey !in m && AvatarKey !in m;
    }
  }

  /** The effect also runs once at start-up; for storage that holds the three
      keys with a non-empty token it rewrites the same values, so start-up
      does not change storage. */
  lemma StartupSyncIsFixpoint(items: map<string, string>)
    requires SessionKeys <= items.Keys && items[TokenKey] != ""
    ensures Synced(items, InitialState(items)) == items
  {
    var r := Synced(items, InitialState(items));
    assert r.Keys == items.Keys;
    forall k | k in items ensures r[k] == items[k] {
    }
  }
}
